# Telemetry frame sender: a verified model

Two Python scripts send simulated telemetry frames to a serial port once a
minute:

- `send_owb_M_ui.py` is a windowed sender with a channel-count control and a log pane.
- `send_owb_M.py` is a command-line sender with a fixed channel count of 100.

Each tick rebuilds a slot table (`data_list`). Slot 0 holds the sentinel
`"0"`. Slot i holds the frame of channel i:

    "$" + body + "*" + checksum + "\r\n"

The body is made of these parts, in order:

- a fixed header;
- a `YYMMDDHHMM` timestamp;
- a fixed payload;
- the channel number in lower-case hexadecimal, zero-padded to two digits;
- the marker `E0`.

The checksum is the XOR of the body's character codes, written in
upper-case hexadecimal and zero-padded to at least two digits. One worker
per channel wakes up, writes its slot to the port and puts `"0"` back. The
windowed sender guards each tick with a non-blocking lock. The command-line
sender instead polls until every slot equals slot 0, giving up after three
one-second sleeps.

The windowed sender's ticks come one at a time from a timer on the UI
thread, so two ticks never overlap. A tick finds the guard held only after
an earlier tick raised an exception between taking and releasing it. The
only call there that can raise is the port's `flush()`, and nothing catches
the exception. From then on the guard stays held and every later tick is
skipped: `UiSender.StuckGuard` proves this.

The model has these modules:

- `FrameChecksum` (`checksum.dfy`): the checksum fold, Python's `hex`, `zfill` and `upper`, and a parser that reads the rendering back.
- `Frames` and `FrameText` (`frames.dfy`):
  - frame body, frame and batch, built over a template of the three fixed texts;
  - `FrameText.Owb` is the template both scripts hard-code, and each `Sender` holds it as its constant `template`;
  - splitting a frame at its last `*`, and the round trip.
- `Slots` (`slots.dfy`): the slot table, the outcome of one worker wake-up, the pending slots, and the completion test of the poll.
- `UiSender` (`ui_sender.dfy`): the windowed sender's globals as class `Sender`, with `create_data`, one worker wake-up and `scheduled_job` with its guard.
- `CliSender` (`cli_sender.dfy`): the command-line sender's `create_data`, worker step, polling loop and `scheduled_job`.
- `LogView` (`log_view.dfy`): the capped message list of `SerialFrame.log_message`.
- `NumericInput` (`numeric_input.dfy`): the channel-count control `NumericControl`.
- `Wrappers` (`wrappers.dfy`): `Option`.

Each state-changing method is proved against a function or a state
description. The lemmas prove the properties of those functions.

Points where the code behaves differently from what a reader might expect:

- **Channel number case.** The channel field is rendered lower-case (`"0a"`), while the checksum is upper-case.
- **Failed writes.** A failed write leaves the slot pending. Only a successful write puts `"0"` back.
- **Checksum length.** The checksum is zero-padded to *at least* two digits. It has exactly two only when the XOR stays below 256. The model proves this holds for ASCII bodies, and so for every frame the scripts build.
- **Completion test.** The poll tests "every entry equals entry 0", not "every slot is empty". `Slots.QuiescentIffNothingPending` shows the two agree while slot 0 holds the sentinel.
- **No guard in the command-line sender.** Its tick has no lock. It does not reset the port's buffers before sending. It resets the output buffer once, after the poll.
- **`flush` before rebuilding.** The windowed sender calls `flush()` before rebuilding the table. It does not reset any buffer.
- **No write lock.** Neither script serialises writes to the port.

## Model

| member | source | states |
|---|---|---|
| FrameChecksum.Xor | send_owb_M_ui.py:57 | Python's `^` on non-negative integers: the result has the parity of a + b, never exceeds a + b, and is 0 when a == b |
| FrameChecksum.XorFold | send_owb_M_ui.py:55-57 | `data_sum` after the loop: never above the sum of the character codes and of the same parity, and the code itself for a one-character body |
| FrameChecksum.Hex | send_owb_M_ui.py:58 | `hex(n)[2:]` is at least one lower-case hex digit, with no leading '0' unless n is 0 |
| FrameChecksum.ZFill | send_owb_M_ui.py:58 | `zfill(w)` yields max(len, w) characters |
| FrameChecksum.ZFillPads | send_owb_M_ui.py:58 | `zfill` ends with the text unchanged and puts only '0's in front of it |
| FrameChecksum.ZFillDigits | send_owb_M_ui.py:58 | padding hex digits with '0' keeps them hex digits |
| FrameChecksum.Upper | send_owb_M_ui.py:58 | `upper()` keeps the length and maps every character by ASCII upper-casing |
| FrameChecksum.Checksum | send_owb_M_ui.py:54-58 | the checksum is at least two upper-case hex digits, "00" for an empty body, and exactly two iff the XOR fold is below 256 |
| FrameChecksum.CreateValidate | send_owb_M_ui.py:54-58 | the XOR loop followed by the rendering computes `Checksum` of its input (the command-line copy, send_owb_M.py:41-45, is the same code) |
| FrameChecksum.XorBelow | send_owb_M_ui.py:57 | XOR of two k-bit values is a k-bit value |
| FrameChecksum.XorFoldBelow | send_owb_M_ui.py:55-57 | folding k-bit character codes stays below 2^k |
| FrameChecksum.ByteBodyChecksumLength | send_owb_M_ui.py:54-58 | a body whose codes are all below 256 has a checksum of exactly two digits |
| FrameChecksum.HexLength | send_owb_M_ui.py:58 | `hex` writes one digit iff n < 16, and at most two iff n < 256 |
| FrameChecksum.HexDigitValue | send_owb_M_ui.py:58 | each digit `hex` writes reads back as its value, in either case |
| FrameChecksum.HexRoundTrip | send_owb_M_ui.py:58 | reading back `hex(n)[2:]` gives n |
| FrameChecksum.ZerosValue | send_owb_M_ui.py:58 | a run of '0' reads as 0 |
| FrameChecksum.LeadingZerosValue | send_owb_M_ui.py:58 | `zfill`'s leading zeros do not change the value |
| FrameChecksum.UpperValue | send_owb_M_ui.py:58 | upper-casing does not change the value |
| FrameChecksum.ChecksumValue | send_owb_M_ui.py:54-58 | the checksum text reads back as exactly the XOR of the body's codes: the rendering loses nothing |
| Frames.ChannelHex | send_owb_M_ui.py:71 | the channel field is at least two lower-case hex digits |
| Frames.Body | send_owb_M_ui.py:71 | the body's length is the sum of the lengths of header, timestamp, payload, channel field and marker |
| Frames.BodyLayout | send_owb_M_ui.py:71 | each of those five fields reads back from the body at its fixed place, in that order |
| Frames.Frame | send_owb_M_ui.py:72 | a frame starts with '$', ends with "\r\n" and is at least six characters longer than its body |
| Frames.Batch | send_owb_M_ui.py:66-73 | a batch for n channels has n + 1 entries, the sentinel "0" first, and the frame of channel k at index k |
| Frames.LastIndexOf | send_owb_M_ui.py:72 | finds the last occurrence of a character, with none after it, or reports that it is absent |
| Frames.SplitFrame | send_owb_M_ui.py:72 | a successful split gives a body and a trailer that reassemble into the frame, with no '*' in the trailer |
| Frames.SplitAssembled | send_owb_M_ui.py:72 | splitting `"$" + b + "*" + c + "\r\n"` gives back b and c when c holds no '*' |
| Frames.FrameRoundTrip | send_owb_M_ui.py:71-72 | splitting any generated frame gives its body and that body's checksum, so every frame checks |
| Frames.BodyIsAscii | send_owb_M_ui.py:71 | a body built from ASCII fixed texts and an ASCII timestamp is ASCII |
| Frames.FrameLength | send_owb_M_ui.py:71-72 | such a frame is exactly six characters longer than its body: its checksum has two digits |
| Frames.BatchFrame | send_owb_M_ui.py:66-73 | every entry 1..n of a batch starts with '$', ends with "\r\n", checks, and carries two checksum digits |
| Frames.ChannelHexValue | send_owb_M_ui.py:71 | channels below 256 get exactly two digits, which read back as the channel |
| Frames.AssembledDiffer | send_owb_M_ui.py:72 | frames around bodies of equal length that differ are different |
| Frames.FramesDistinct | send_owb_M_ui.py:71-72 | distinct channels below 256 (the control allows at most 100) give distinct frames for one timestamp |
| FrameText.OwbIsAscii | send_owb_M_ui.py:63-65 | the hard-coded header, payload and marker are ASCII |
| Slots.ClearPending | send_owb_M_ui.py:99 | emptying a pending slot removes exactly that slot from the pending set |
| Slots.AllEmptyComplete | send_owb_M.py:108 | a table of empty slots passes the completion test and has nothing pending |
| Slots.QuiescentIffNothingPending | send_owb_M.py:108 | with the sentinel in slot 0, "every entry equals entry 0" holds iff no slot is pending |
| Slots.PendingOfFrames | send_owb_M.py:52-60 | a table of the sentinel followed by frames has every slot but 0 pending and fails the completion test |
| Slots.FreshBatchPending | send_owb_M.py:52-60 | right after `create_data` exactly slots 1..n are pending, and with n >= 1 the table is not complete |
| UiSender.WorkerStep | send_owb_M_ui.py:84-110 | stop set: the worker exits and the table is unchanged; missing slot: `IndexError`; slot "0": nothing sent, table unchanged; port closed: the worker exits, slot unchanged; a write is attempted iff not stopped, slot pending and port open; success empties only the worker's slot; a timeout or other error leaves the slot pending |
| UiSender.StepPending | send_owb_M_ui.py:88-99 | a wake-up removes its own slot from the pending set exactly when it sends, and never changes the sentinel |
| UiSender.DrainState | send_owb_M_ui.py:88-99 | after workers 1..k each send once, slots 1..k are empty, the others unchanged, and the sink received slots 1..k in order |
| UiSender.DrainBatch | send_owb_M_ui.py:88-99 | when every worker of a fresh batch sends once, the sink receives the whole batch in channel order and the table is complete |
| UiSender.Raisings | send_owb_M_ui.py:122-123 | the wake-flag raisings are one per flag, in index order |
| UiSender.Sender.constructor | send_owb_M_ui.py:289-291 | the windowed sender starts with one cleared wake flag per channel (`Valid`), an empty table, the guard free and the hard-coded template `Owb` |
| UiSender.Sender.CreateData | send_owb_M_ui.py:62-73 | `create_data` leaves exactly `Batch(template, num_threads, ts)` in the table |
| UiSender.Sender.Worker | send_owb_M_ui.py:78-110 | one wake-up clears the worker's own wake flag and changes the table as `WorkerStep` says; the sink records the frame iff it was sent; one flag per worker is kept |
| UiSender.Sender.RaiseAll | send_owb_M_ui.py:122-123 | every wake flag is raised, in index order |
| UiSender.Sender.ScheduledJob | send_owb_M_ui.py:113-125 | a tick while the guard is held changes nothing and is logged as skipped; otherwise the guard is taken and the port flushed; a `flush()` that raises ends the tick with the guard still held and table and flags untouched; else the table is rebuilt before any wake flag is raised, every flag raised, and the guard released; the guard afterwards is `GuardAfter` of the old guard and the flush; one flag per worker is kept, and a full tick raises all `num_threads` of them |
| UiSender.TickRuns | send_owb_M_ui.py:113-125 | for a run of ticks, one entry per tick, the first running exactly when the guard starts free |
| UiSender.StuckGuard | send_owb_M_ui.py:115-125 | after a tick whose `flush()` raises, every later tick is skipped; a held guard skips every tick; with a free guard and no failing flush every tick runs |
| CliSender.WorkerStep | send_owb_M.py:71-92 | missing slot: `IndexError`; slot "0": nothing sent, table unchanged, and the loop-head test ends the thread when the stop flag is set; stop set: the thread ends, slot unchanged; port closed: nothing changes and the worker keeps looping; success empties only the worker's slot; a timeout or other error leaves it pending |
| CliSender.VariantsAgree | send_owb_M.py:71-92 | both scripts' wake-ups always leave the same table, both end once the stop flag is set, and with no stop and an open port they have the same outcome |
| CliSender.PollExit | send_owb_M.py:106-116 | the poll stops at a counter between 0 and 3 where the table is complete or the counter is 3 |
| CliSender.PollExitFirst | send_owb_M.py:106-116 | no check before the exit found the table complete |
| CliSender.PollUntilDone | send_owb_M.py:102-116 | the loop terminates after at most four checks and three sleeps, at `PollExit`; it exits at the first complete check or at i = 3; a table complete at the first check gives i = 0 and no sleep |
| CliSender.PollOutcome | send_owb_M.py:106-116 | when each table the poll sees is the fresh batch with some frames sent: the exit table is complete iff nothing is pending, an exit before check 3 means every frame went out, and every earlier check still had a frame pending |
| CliSender.Sender.constructor | send_owb_M.py:13-18 | the command-line sender starts with an empty table, the wake flag cleared and the hard-coded template `Owb` |
| CliSender.Sender.CreateData | send_owb_M.py:48-60 | `create_data` leaves exactly `Batch(template, 100, ts)` in the table |
| CliSender.Sender.Worker | send_owb_M.py:71-92 | one pass of the worker loop, up to the next loop-head test, changes the table as `CliSender.WorkerStep` says and records the frame iff it was sent |
| CliSender.Sender.ScheduledJob | send_owb_M.py:97-116 | a tick rebuilds the table and polls; it stops at `PollExit`, and the table is then the one the exit check saw, which is the batch with some frames sent; an exit before check 3 means no frame is pending; every earlier check had one pending; the wake flag ends cleared and the output buffer is reset once |
| LogView.AfterAppend | send_owb_M_ui.py:210-214 | after `log_message` the list ends with the new message and is a tail of old list + message; below the cap nothing is dropped; past it the first len // 2 go; a list within the cap stays within it; at least min(len + 1, 50001) entries remain |
| LogView.AppendAllIsRecent | send_owb_M_ui.py:210-214 | after any number of messages the list is the most recent stretch of everything logged, in order |
| LogView.AppendAllBounds | send_owb_M_ui.py:212-214 | after any number of messages at least the newest 50001 (or all) remain, and a list that started within the cap stays within it |
| LogView.SerialFrame.constructor | send_owb_M_ui.py:186 | the message list starts empty |
| LogView.SerialFrame.LogMessage | send_owb_M_ui.py:205-214 | `log_message` appends "stamp - message\n" and trims as `AfterAppend` says |
| NumericInput.TextChanged | send_owb_M_ui.py:373-384 | non-numeric text becomes min; the result is always within [min, max]; values within are kept; values outside become the nearest value in range |
| NumericInput.Decreased | send_owb_M_ui.py:359-364 | "-" lowers an in-range value by exactly 1 unless it is at min, and leaves non-numeric text alone |
| NumericInput.Increased | send_owb_M_ui.py:366-371 | "+" raises an in-range value by exactly 1 unless it is at max, and leaves non-numeric text alone |
| NumericInput.ValueSet | send_owb_M_ui.py:390-393 | `SetValue` takes a value within [min, max] and ignores any other |
| NumericInput.TextChangedIdempotent | send_owb_M_ui.py:373-384 | the handler re-fired by its own write changes nothing more |
| NumericInput.StepsUndo | send_owb_M_ui.py:359-371 | within the bounds "+" and "-" undo each other |
| NumericInput.NumericControl.constructor | send_owb_M_ui.py:327-347 | the field starts as the given value, in range when that value is |
| NumericInput.NumericControl.SetText | send_owb_M_ui.py:378 | writing the field runs the text-change handler, leaving the field in range |
| NumericInput.NumericControl.OnTextChange | send_owb_M_ui.py:373-384 | the field becomes `TextChanged` of what was typed, always in range |
| NumericInput.NumericControl.OnDecrease | send_owb_M_ui.py:359-364 | the field becomes `Decreased` of the old field; in range stays in range |
| NumericInput.NumericControl.OnIncrease | send_owb_M_ui.py:366-371 | the field becomes `Increased` of the old field; in range stays in range |
| NumericInput.NumericControl.GetValue | send_owb_M_ui.py:386-388 | the value is present iff the field is numeric, and within the bounds when the control is in range |
| NumericInput.NumericControl.SetValue | send_owb_M_ui.py:390-393 | the field becomes `ValueSet` of the old field; in range stays in range |

## Left out

- Serial I/O is not modelled as such. That covers opening the port, `write`, `flush`, `reset_input_buffer`, `reset_output_buffer` and `is_open`. A worker wake-up takes "port open" and the write's result as inputs. The frames the port accepted, the flushes and the buffer resets appear only as ghost records.
- Threads and `threading.Event` wait/set/clear semantics are not modelled. Worker wake-ups are sequential steps on the table. Wake flags are booleans. The tables the command-line poll sees between checks are an input (`snapshots`). `CliSender.Sender.ScheduledJob` requires each of them to be the fresh batch with some slots emptied, which is all a worker can do to its slot.
- The outcome of the windowed sender's `flush()` is an input of the tick. An exception that leaves the tick is modelled by where the tick stops and what it leaves behind. How the exception travels on through `schedule` and the wx event loop is not modelled.
- The `KeyboardInterrupt` path of the command-line `scheduled_job` (send_owb_M.py:117-124) is left out: stopping and joining threads.
- The start/stop bookkeeping of the windowed sender (send_owb_M_ui.py:253-316) is left out. Of it, only the creation of one wake flag per channel is kept, as the `Sender` constructor.
- `schedule`, `apscheduler` and `wx.Timer` are external triggers. `wx` layout, `wx.CallAfter`, message boxes and busy indicators are not modelled.
- The log pane's text (`SetValue(''.join(...))`) is not modelled. Port discovery (`list_ports`, `glob`) is not modelled.
- `log_file` disk writes and `os.makedirs` are file I/O. `datetime.now`/`strftime` are replaced by the timestamp and stamp parameters, and `time.sleep` by the sleep counter.
- `NumericInput.NumericControl`: the control requires `min <= max`. The scripts create it with 1 and 100. With the bounds reversed, the text-change handler would keep re-firing itself through its own `SetValue`.
- The field's text is abstracted to "a number" or "not a number". Formatting with `str` and parsing with `int` (whitespace, signs) are not modelled.
- `FrameChecksum.Upper` handles ASCII letters only. It is applied only to hexadecimal digits.
- `Frames.FramesDistinct` is stated for channels below 256, where the channel field has exactly two digits. The control limits channels to 100.
