# CAN bus tool core, modelled in Dafny

This project models the frame-handling core of a desktop CAN bus tool. The
core has these parts:

- a bounded receive history (`RxBuffer`);
- the transmit models built from a DBC signal database;
- the CSV session logger and the log replay with its pacing;
- the virtual frame generator with per-signal counters and random bounds;
- the DBC manager and its lookups;
- the python-can bus controller lifecycle;
- the application controller that ties these parts together;
- the bus configuration and the persisted workspace settings.

There is one module per source file:

- `Config` models core/config.py.
- `Dbc` models core/dbc_manager.py.
- `Models` models core/models.py.
- `CanBus` models canio/can_bus.py.
- `Logger` models canio/logger.py.
- `Virtual` models canio/virtual.py.
- `Controller` models app/controller.py.

Two modules hold shared pieces. `Base` holds `Option`, `Result`, the Python exceptions the core raises, and `byte`. `Text` holds the Python text built-ins the core uses: `hex`, `int(s, 16)`, `f"{b:02X}"`, `str.join`, `str.split` and `str(n)`.

Objects whose fields the source updates are classes with `modifies` frames: the receive buffer, the session logger, the generator, the DBC manager, the bus, the bus controller, the application controller and the cyclic timers. Those with an invariant to keep carry a `Valid()` predicate: the receive buffer, the session logger, the generator, the bus controller and the application controller. The formatters, parsers and lookups are functions on values.

Some outside pieces become parameters:

- The cantools library becomes uninterpreted functions. Each `Message` carries its own `encode` and `decode`, and the DBC parser is the `loadFile` parameter.
- python-can becomes an abstract `Bus` object that records what it was sent, plus a `connect` verdict on the keyword arguments.
- Clocks become a `clock: nat -> real` parameter or a `now` value.
- `random.uniform` becomes a `uniform: (real, real) -> real` parameter.
- JSON documents become a `Value` datatype.
- A CSV file becomes a sequence of `Row`s.

One pass of a background loop becomes a method:

- a sweep of `_run` is `VirtualGenerator.Sweep`;
- one receive of `_listen` is `CanBusController.ListenOnce`;
- a bounded prefix of the `iter_events` generator is `IterEvents`.

## Model

| member | source | states |
|---|---|---|
| Models.RxBuffer.constructor | core/models.py:26-28 | A new buffer has the given limit and no entries. |
| Models.RxBuffer.Append | core/models.py:30-33 | The new entry goes in front and the tail is popped once the limit is passed. The buffer always equals the last `min(N, limit)` appended entries, newest first (`Valid`), and its length stays within the capacity. |
| Models.Pushed | core/models.py:30-33 | The list after `insert(0, entry)` and one tail `pop()` when it passes the limit. AppendShape and PushedNewest state its properties. |
| Models.AppendShape | core/models.py:30-33 | After an append the length is within the capacity and the new entry is at index 0. Below the limit the length grows by one. At the limit it stays the same. Every earlier entry moves one place down in the same order, so only the oldest can be dropped. |
| Models.PushedNewest | core/models.py:30-33 | Appending to the newest-first window of a history gives the window of the extended history. |
| Models.Newest | core/models.py:30-33 | The window has as many entries as the smaller of the history length and the capacity, and entry i is the i-th newest. |
| Models.AppendAllNewest | core/models.py:26-33 | N appends into an empty buffer leave exactly the last `min(N, limit)` entries, in reverse order of insertion. |
| Models.RxBuffer.Entries | core/models.py:35-37 | It returns the current list, which equals the newest-first window of the history, and changes nothing. |
| Models.SignalNameSet | core/models.py:56 | The set holds exactly the names of the message's signals. |
| Models.FromMessage | core/models.py:53-58 | Every signal name has an entry `TxSignalValue(name, 0)`. No other key is present. The model keeps its message, has no period and is inactive. |
| Models.SignalValues | core/models.py:61 | It has the same keys as the signals and maps each name to that signal's value. |
| Models.Payload | core/models.py:60-62 | The encoder is given exactly the name-to-value map of the current signals. |
| Models.FromMessagePayload | core/models.py:53-62 | A fresh model encodes zero for every signal of its message and for nothing else. |
| Text.HexDigit | canio/logger.py:22-25 | The digit for d reads back as d. It is not whitespace, a sign or an `x`, and it is lower-case or upper-case as asked. |
| Text.HexDigits | canio/logger.py:25 | The digits are non-empty, each one `0-9` or `a-f`, with no whitespace and no leading zero (only 0 itself is written as `0`). |
| Text.PyHex | canio/logger.py:25 | `hex(n)`: `0x` and the digits of n, after a `-` when n is negative. PyHexRoundTrip states that it reads back as n. |
| Text.HexDigitsValue | canio/logger.py:25 | The digits printed for n read back as n. |
| Text.ParseHexInt | canio/logger.py:55 | `int(s, 16)` succeeds exactly on a literal: an optional sign, an optional `0x`/`0X`, then one or more hexadecimal digits of either case. Its value is the digits' value, negated after `-`. Every failure is a `ValueError`. |
| Text.ParseHexIntRejects | canio/logger.py:55 | A character anywhere in the text that is not a hexadecimal digit, a sign or an `x` makes `int(s, 16)` raise. |
| Text.PyHexRoundTrip | canio/logger.py:25 | `int(hex(n), 16) == n` for every integer, negative ones included. |
| Text.ByteHex | canio/logger.py:22 | `f"{b:02X}"` is two characters, each `0-9` or `A-F`, with no whitespace, and it reads back as b. |
| Text.DecimalString | core/dbc_manager.py:78 | `str(n)` is a non-empty string of decimal digits. |
| Text.DecimalRoundTrip | core/dbc_manager.py:78 | The decimal text of n reads back as n. |
| Text.ByteHexes | canio/logger.py:22 | The i-th part is the two-digit text of byte i. |
| Text.Join | core/dbc_manager.py:79 | `sep.join(parts)`: the parts in order with `sep` between neighbours. HexBytesLength, HexBytesPair and HexBytesSeparator state its shape for the payload text. |
| Text.HexBytes | canio/logger.py:22 | `" ".join(f"{b:02X}" for b in data)`. HexBytesLength, HexBytesPair, HexBytesSeparator and HexBytesRoundTrip state its properties. |
| Text.Split | canio/logger.py:56 | `str.split()` on ASCII whitespace: the maximal runs of non-space characters, in order. SplitJoin states that it undoes a space join of non-empty words. |
| Text.SplitJoin | canio/logger.py:56 | Splitting a space-joined sequence of non-empty, whitespace-free words gives back the words. |
| Text.ParseBytes | canio/logger.py:56 | There is one byte per token. Every failure is a `ValueError`. |
| Text.ParseBytesValues | canio/logger.py:56 | `bytes(int(b, 16) for b in tokens)` succeeds exactly when every token parses to a value in `[0, 256)`, and byte i is then the value of token i. |
| Text.ParseByteHexes | canio/logger.py:56 | Parsing the two-digit texts of a byte sequence gives the bytes back. |
| Text.HexBytesRoundTrip | canio/logger.py:22 | Splitting the payload text and parsing each word gives back the payload. |
| Text.HexBytesLength | canio/logger.py:22 | The payload text of n bytes has `3n - 1` characters, and the empty payload gives the empty text. |
| Text.HexBytesPair | canio/logger.py:22 | Characters `3i` and `3i+1` are the upper-case digits of byte i. |
| Text.HexBytesSeparator | canio/logger.py:22 | Pairs are separated by single spaces. |
| Logger.SessionLogger.constructor | canio/logger.py:15-19 | A new file holds exactly the header row `timestamp, id, dlc, data`. |
| Logger.SessionLogger.Log | canio/logger.py:21-28 | An open logger appends exactly one row, the row of that frame. A closed file raises `ValueError` and nothing changes. |
| Logger.SessionLogger.Close | canio/logger.py:31-32 | The file is closed. |
| Logger.LogFileAppend | canio/logger.py:21-28 | Logging one more frame appends exactly its row to the file. |
| Logger.LogFileSingleHeader | canio/logger.py:17-19 | The header is the first row and every later row is a data row. |
| Logger.FormatRow | canio/logger.py:22-28 | The row written for one frame: timestamp, `hex(id)`, `str(len(data))` and the payload text. FormatRowFields and RowRoundTrip state its properties. |
| Logger.LogFile | canio/logger.py:17-28 | The file after the header and one row per logged frame. LogFileShape, LogFileAppend and LogFileSingleHeader state its properties. |
| Logger.LogFileShape | canio/logger.py:17-28 | The header row comes first and row i + 1 is the row of frame i, so there is one row more than there are frames. |
| Logger.FormatRowFields | canio/logger.py:22-28 | A row keeps the timestamp. Its id reads back with `int(..., 16)` as the frame id. Its dlc reads back as `len(data)`. The data text is one upper-case pair per byte, with single spaces between pairs. |
| Logger.ParseRow | canio/logger.py:54-56 | One data row read with `float`, `int(id, 16)` and `bytes(int(b, 16) ...)`. ParseRowOutcome states when it fails and what it returns. |
| Logger.ParseRowOutcome | canio/logger.py:54-57 | Parsing a row fails exactly when it is a header or its id or payload is not hexadecimal, and every failure is a `ValueError`. A parsed event holds the row's timestamp and the values of its id and payload text, and the dlc column is ignored. |
| Logger.RowRoundTrip | canio/logger.py:22-27 | A logged row parses back to the frame's timestamp, id and bytes. |
| Logger.ParseAll | canio/logger.py:53-57 | There is one value per row, in order. Otherwise the result is the error of the first row that does not parse. |
| Logger.DataRows | canio/logger.py:52-53 | The rows `csv.DictReader` yields: every row after the first, which it takes as the header. Load and LoggedFileRows state their use. |
| Logger.Load | canio/logger.py:50-57 | Loading succeeds exactly when every data row parses. It then gives one event per data row, in file order. Otherwise it raises the first failing row's error. |
| Logger.LoggedFileRows | canio/logger.py:22-27 | Data row i of a file the logger wrote loads as frame i's timestamp, id and bytes. |
| Logger.NewLogReplay | canio/logger.py:45-48 | The constructor returns a replay exactly when every row parses, holding every event in order. Otherwise it raises. |
| Logger.PassPosition | canio/logger.py:60-70 | The position of an item within its pass is below the pass length. |
| Logger.PassPositionMod | canio/logger.py:60-70 | The position of item k within passes of n events is `k mod n`. |
| Logger.Offset | canio/logger.py:61-66 | The delay of event i: `(ts_i - ts_0)/speed`, measured from the first event of the pass. |
| Logger.EmissionAt | canio/logger.py:61-68 | The item for event i: a sleep of its offset when that is positive, then the event's id and data with the given clock reading and `is_extended_id` false. IterEvents states that every item is one of these. |
| Logger.IterEvents | canio/logger.py:59-70 | Without `loop`, `min(demand, len(rows))` items are produced; with it, `demand` items. Item k replays event `k mod n` with its id and data copied and `is_extended_id` false. The sleep before it is that event's full offset `(ts_i - ts_0)/speed`, and there is no sleep when that offset is not positive. So the first event of every pass does not sleep. |
| Logger.SleptThrough | canio/logger.py:61-67 | The total slept up to event i of a pass as the code paces it: the sum of the positive offsets of events 0 to i. FirstPassSleeps ties it to IterEvents and ReplayDriftExample exhibits the drift. |
| Logger.FirstPassSleeps | canio/logger.py:61-67 | In the first pass, the sleeps before items 0 to i add up to SleptThrough for event i. |
| Logger.ReplayDriftExample | canio/logger.py:61-67 | With timestamps 0, 0.5 and 1.0 at speed 2, the third event's offset is 0.5 s but 0.75 s have been slept by then. |
| Logger.PacedSleep | canio/logger.py:61-67 | The corrected pacing: before event i, sleep only what is still missing from its offset. PacedTiming states its timing. |
| Logger.PacedElapsed | canio/logger.py:61-67 | The time the corrected pacing has slept before event i. PacedTiming states its timing. |
| Logger.PacedTiming | canio/logger.py:61-67 | With sleeps that make up only the missing time, a chronological recording at positive speed reaches every event exactly at its scaled offset. |
| Virtual.VirtualGenerator.constructor | canio/virtual.py:16-24 | A new generator is stopped with no worker, a period of 0.2 s, no filter, no counters and random mode. |
| Virtual.PeriodOf | canio/virtual.py:29 | The period is `max(10, period_ms)/1000`, so it is never below 0.01 s. |
| Virtual.FilterOf | canio/virtual.py:30 | An absent or empty list means no filter. Otherwise the filter is the set of the given names. |
| Virtual.Selected | canio/virtual.py:48-50 | The messages a sweep takes, in database order. SelectedAll, SelectedOne, SelectedConcat and SelectedMembers state its properties. |
| Virtual.SelectedOne | canio/virtual.py:48-50 | A single message is taken exactly when it passes the filter. |
| Virtual.SelectedConcat | canio/virtual.py:48-50 | Selecting from a concatenation gives the two selections concatenated. With SelectedOne, every message is considered once, in order, and kept exactly when it passes. |
| Virtual.Passes | canio/virtual.py:49 | The filter test: a message is skipped only when a non-empty filter does not hold its name. SelectedOne and SelectedMembers state its use. |
| Virtual.SelectedAll | canio/virtual.py:48-50 | Without a filter every message is emitted, in database order. |
| Virtual.SelectedMembers | canio/virtual.py:48-50 | With a filter, exactly the messages whose names pass it are emitted. |
| Virtual.VirtualGenerator.Start | canio/virtual.py:26-34 | A running generator is stopped first. Afterwards it is running with a worker, the clamped period, the filter and the mode, and the counters are unchanged. |
| Virtual.VirtualGenerator.Stop | canio/virtual.py:36-40 | Afterwards the generator is not running and has no worker. |
| Virtual.PayloadFor | canio/virtual.py:61-71 | The signal loop of `_build_payload`, one signal at a time in order. PayloadShape, PayloadValues and CounterUntouched state its properties. |
| Virtual.Counter | canio/virtual.py:68 | `self._incrementers.get(name, 0)`: the stored counter, or 0 for a name without one. PayloadValues and CounterUntouched state its use. |
| Virtual.RandomBounds | canio/virtual.py:65-66 | An undefined minimum is 0 and an undefined maximum is the minimum plus 100. Defined bounds are kept. |
| Virtual.PayloadShape | canio/virtual.py:61-72 | The payload has one key per signal name and no other. Counters stay in `[0, 1000)`. Random mode leaves them unchanged. Counter mode adds only signal names as keys. |
| Virtual.PayloadValues | canio/virtual.py:63-71 | In random mode a signal with a distinct name gets the draw within its bounds. In counter mode it gets its current counter (0 by default), and that counter becomes `(step + 1) % 1000`. |
| Virtual.CounterUntouched | canio/virtual.py:69-71 | Counters are keyed by signal name only: a signal loop without that name leaves the counter alone. |
| Virtual.VirtualGenerator.BuildPayload | canio/virtual.py:61-72 | The signal loop leaves the counters as the payload specification says and returns the encoding of its payload. Counters stay in `[0, 1000)`. |
| Virtual.SweepStep | canio/virtual.py:51-58 | One message of a sweep that has not failed: the payload is built and encoded and a frame with the next clock reading is added, or the encoding error ends the sweep. A failed sweep stays as it is. |
| Virtual.SweepOf | canio/virtual.py:48-58 | A sweep over the selected messages, one SweepStep each. SweepFrames and SweepCounters state its properties. |
| Virtual.VirtualGenerator.Emit | canio/virtual.py:51-58 | One message of a sweep: the frame is the encoded payload stamped with the next clock reading, or the encoding error. |
| Virtual.SweepFrames | canio/virtual.py:48-58 | Frame k carries the k-th selected message's frame id and extended flag and the k-th clock reading. Without a failure there is a frame per selected message. A failure stops the sweep early. |
| Virtual.SweepCounters | canio/virtual.py:48-58 | Counters stay in `[0, 1000)` over a sweep, and random mode leaves them unchanged. |
| Virtual.VirtualGenerator.Sweep | canio/virtual.py:42-59 | A stopped generator, or one with no DBC loaded, emits nothing and changes nothing. Otherwise the frames and counters are those of the sweep over the messages that pass the filter, and an encoding failure is raised. |
| Virtual.VirtualGenerator.SweepMessages | canio/virtual.py:48-58 | The loop over the database's messages gives exactly the sweep's frames and counters, and it fails exactly when the sweep does, with the same error. |
| Dbc.MessageByFrameId | core/dbc_manager.py:28-29 | There is no result exactly when no message has the id. Otherwise the result is a database message with that id. |
| Dbc.MessageByName | core/dbc_manager.py:38 | There is no result exactly when no message has the name. Otherwise the result is a database message with that name. |
| Dbc.Messages | core/dbc_manager.py:24-26 | The messages, in database order. |
| Dbc.MessageById | core/dbc_manager.py:28-29 | A message is found exactly when one has the id. |
| Dbc.Decode | core/dbc_manager.py:31-35 | An unknown id decodes to `{}`. A known one is decoded by its message's own decoder. |
| Dbc.Encode | core/dbc_manager.py:37-41 | An unknown name raises `KeyError("Message <name> not found")`. A known one is encoded by its message's own encoder. |
| Dbc.SignalNames | core/dbc_manager.py:79 | There is one name per signal, in order. |
| Dbc.DescribeMessage | core/dbc_manager.py:75-80 | The record of one message: its name, `hex(frame_id)`, `str(length)` and the signal names joined by `, `. DescribeMessageReadsBack states that the id and dlc read back. |
| Dbc.DescribeMessageReadsBack | core/dbc_manager.py:77-78 | The record's `id` reads back as the frame id and its `dlc` as the length. |
| Dbc.DbcManager.constructor | core/dbc_manager.py:47-48 | Nothing is loaded. |
| Base.ErrorText | core/dbc_manager.py:57 | `str(exc)`: the exception's message, with a `KeyError` key quoted. DbcManager.Load states that `DbcLoadError` carries it. |
| Dbc.DbcManager.Load | core/dbc_manager.py:54-60 | A parse failure raises `DbcLoadError` with the library's message and keeps the previous database. Success loads and returns a `LoadedDbc` with the given path. |
| Dbc.DbcManager.Unload | core/dbc_manager.py:62-63 | Afterwards nothing is loaded, so a second call changes nothing. |
| Dbc.DbcManager.ValidateBitrate | core/dbc_manager.py:65-67 | True exactly when the bitrate is positive. |
| Dbc.DbcManager.Describe | core/dbc_manager.py:69-82 | Nothing loaded gives `{}`. Otherwise it gives `{"messages": records}` with one record per message, in order. |
| CanBus.Bus.constructor | canio/can_bus.py:42-44 | A new bus keeps the keyword arguments it was opened with, has sent nothing and is not shut down. |
| CanBus.Bus.Send | canio/can_bus.py:59 | The message is appended to what the bus has sent, and nothing else changes. |
| CanBus.Bus.Shutdown | canio/can_bus.py:51-53 | The bus is shut down and what it has sent is unchanged. |
| CanBus.CanBusController.constructor | canio/can_bus.py:25-30 | A new controller keeps its config, has no bus and no callback, and is not running. |
| CanBus.CanBusController.IsRunning | canio/can_bus.py:32-34 | Running exactly when a bus is open. |
| CanBus.CanBusController.SetCallback | canio/can_bus.py:36-37 | The callback is replaced. |
| CanBus.CanBusController.Start | canio/can_bus.py:39-45 | When already running, nothing changes. A failing bus constructor leaves the controller stopped with no bus. Success opens a fresh bus with `to_kwargs()` and marks the controller running. |
| CanBus.CanBusController.Stop | canio/can_bus.py:47-53 | Afterwards the controller is stopped with no bus, and any bus it held is shut down. It is safe before `start` and when repeated. |
| CanBus.CanBusController.Send | canio/can_bus.py:55-59 | Without a bus it raises `RuntimeError("CAN bus not started")`. Otherwise exactly one message, with the id, data and flag unchanged, reaches the transport. |
| CanBus.CanBusController.ListenOnce | canio/can_bus.py:61-74 | A frame is delivered, once and copied, exactly when the loop is running, a frame arrived and a callback is set. |
| Config.ToKwargs | core/config.py:23-32 | The keys are always `channel`, `bustype` (the interface) and `bitrate`, with their values. `fd` is present, and true, exactly when fd is set. |
| Config.Save | core/config.py:57-60 | The document has the four settings keys, and its bus entry has the four config fields. |
| Config.BusFromDict | core/config.py:49 | `BusConfig(**d)`: an unknown key raises `TypeError`. Each field takes the mapping's value when the key is present and its default (`vcan0`, `virtual`, 500000, no fd) otherwise. The model also reports a present value of the wrong type as `TypeError`, so it succeeds exactly on well-typed mappings (see Left out). |
| Config.BusFromDictPartial | core/config.py:49 | A mapping with only `channel` gives that channel and the defaults for the other three fields. |
| Config.Load | core/config.py:44-55 | A missing file gives the default settings, and so does an empty document. A missing `bus` gives the default bus. A missing `tx_workspace` gives `{}`. A missing `last_dbc` gives `None`. |
| Config.LoadDocument | core/config.py:44-55 | Loading a dict document succeeds exactly when its present fields are well typed (text or null for the paths, a well-typed mapping for `bus`, a mapping for `tx_workspace`). Every field is then taken from the document when present and keeps its default when missing; other keys are ignored. |
| Config.LoadLastDbcOnly | core/config.py:44-55 | A document holding only `last_dbc` loads that path with the default bus, no layout state and an empty transmit workspace. |
| Config.SaveLoadRoundTrip | core/config.py:44-60 | Saving and then loading gives back the same settings, so `last_dbc`, `bus.channel` and `bus.interface` survive. |
| Controller.BuildEntry | app/controller.py:96-107 | The receive-table entry of one frame, given what is loaded. BuildEntryFields states its fields. |
| Controller.BuildEntryFields | app/controller.py:96-107 | The entry keeps the frame's timestamp and id. Its dlc is the payload length. Its hex text has the expected length and reads back as the payload. With no DBC it has `{}` and no name. With a DBC it is named exactly when a message has the id, and then by that message, with that message's decoding. |
| Controller.TxModels | app/controller.py:71 | There is one model per message name and no other key. |
| Controller.TxModelsLast | app/controller.py:71 | A name shared by several messages maps to the model of the last of them. |
| Controller.CyclicTimer.constructor | app/controller.py:163-166 | A started timer holds the name, the values and the interval. |
| Controller.CyclicTimer.Stop | app/controller.py:171 | The timer is stopped. |
| Controller.ApplicationController.constructor | app/controller.py:20-36 | The receive buffer holds 2000 entries. The bus controller uses the saved bus settings and reports to `on_message_received`. No logger and no timers are present, and the generator is stopped. The settings are kept. The last DBC is reloaded when its path is non-empty, and a reload that fails leaves nothing loaded. |
| Controller.ApplicationController.LoadDbc | app/controller.py:61-72 | A failed load changes nothing. A successful one loads the database, records the path as `last_dbc`, and gives one transmit model per message name. |
| Controller.ApplicationController.UnloadDbc | app/controller.py:74-78 | The DBC is cleared and the generator is stopped. |
| Controller.ApplicationController.ConnectBus | app/controller.py:81-88 | The bus controller is started. A transport failure is only reported and leaves it stopped. |
| Controller.ApplicationController.DisconnectBus | app/controller.py:90-93 | The bus controller is stopped and its bus shut down. |
| Controller.ApplicationController.OnMessageReceived | app/controller.py:95-113 | The built entry is appended to the receive buffer exactly once. The frame is logged, one row, exactly when a logger is attached. |
| Controller.ApplicationController.StartVirtual | app/controller.py:116-125 | With no DBC loaded the generator is untouched. Otherwise it runs with the clamped period, the filter, the mode and its own counters. |
| Controller.ApplicationController.StopVirtual | app/controller.py:127-131 | The generator is stopped. |
| Controller.ApplicationController.StartLogging | app/controller.py:134-140 | A fresh logger with only the header is attached. The one it replaces is not closed. |
| Controller.ApplicationController.StopLogging | app/controller.py:142-147 | An attached logger is closed, and afterwards no logger is attached, also when none was. |
| Controller.ApplicationController.SendOnce | app/controller.py:150-159 | With no DBC loaded nothing is sent. An encoding failure (such as an unknown name) raises and sends nothing. Otherwise the message is found and exactly one frame with its id, data and extended flag is sent, or `RuntimeError` is raised when there is no bus. |
| Controller.ApplicationController.HandleCyclic | app/controller.py:161-171 | Activating stores a new running timer under the name and overwrites any old timer without stopping it. Deactivating removes the name and stops its timer; an absent name changes nothing. Other names are untouched. |

## Left out

- Threads, `join(timeout=1)`, daemon flags and `time.sleep` are not modelled. The background loops become one pass each, as listed above.
- `time.time()` is not modelled: clock readings are parameters.
- `_listener_thread` is not modelled, since the thread handle is not observable.
- `Virtual.PayloadValues`: `random.uniform` is a function `uniform` of the bounds. So two draws with the same bounds coincide in the model, and only the bound computation is pinned down.
- The `:.6f` formatting of logged timestamps is not modelled. Timestamps are reals written and read back unchanged.
- CSV quoting, file open, flush and close are not modelled, and neither is JSON text encoding. A file of rows and a JSON value stand for them.
- `Text.ParseHexInt`: the surrounding whitespace, the `_` digit separators and the non-ASCII decimal digits (Arabic-Indic, full-width and so on) that `int(s, 16)` also accepts are not modelled, because the logger never writes them.
- `Text.Split`: only ASCII whitespace separates words. `str.split()` also splits at `\x1c`-`\x1f`, `\x85`, `\xa0`, U+1680, U+2000-U+200A, U+2028, U+2029, U+202F, U+205F and U+3000. The logger never writes them.
- `Base.ErrorText`: a `KeyError` key is quoted with `'`, as `repr` does for a key without quotes or backslashes; other `repr` escapes are not modelled.
- The header that `csv.DictReader` takes from the first row is not checked against the column names. A data row always has all four columns.
- `Logger.IterEvents`: an empty recording with `loop` set makes the Python generator spin forever without yielding. The model returns no events for it.
- `Logger.IterEvents`: `speed == 0` divides by zero in the source. A non-zero speed is a precondition.
- Negative speeds are not rejected by the source, and the model follows it.
- `Config.BusFromDict`: the dataclass stores a present value of the wrong type (a number for `channel`, say) unchecked, and only an unknown key raises `TypeError`. The model raises `TypeError` for a wrongly typed value too, because the stored value could not be given a `BusConfig` field type.
- `Config.Load`: a present value of the wrong JSON type (a number for `channel`, say) is stored unchecked by the Python dataclass. The model reports it as `TypeError` instead. A non-dict document is an `AttributeError`.
- Config paths and `mkdir` are not modelled, and neither is the file that `settings.save()` writes. `LoadDbc` records `last_dbc` but does not model the save.
- `Path`/`str(path)` normalisation is not modelled. Paths are strings.
- cantools DBC parsing and the bit-level `encode`/`decode` are functions carried by each `Message`.
- `Dbc.MessageByFrameId` and `Dbc.MessageByName` follow the source's `Optional` result and return the first matching message in database order. cantools looks messages up in dicts, where a repeated id or name keeps the last definition, and a missing key raises `KeyError` rather than returning `None`; that library behaviour is not modelled.
- A decoding error in cantools is not modelled; `decode` always returns a mapping.
- python-can bus construction, `recv` and `send` are abstract. A transport error from `send` is not modelled.
- `Virtual.VirtualGenerator.Sweep`: an encoding failure ends the worker thread while `_running` stays true. The model returns the error and keeps `running`, but does not model that the thread is gone.
- `signals_for_message` is not modelled, since it is a plain copy of the signal list.
- `_choose_and_load_dbc`, `_update_signal_view`, `_toggle_theme`, `_connect_ui`, status messages, dialogs and `set_tx_models` are Qt and UI, and are not modelled. `LoadDbc` returns the transmit models it would hand to the window.
- Qt timer firing and `QMetaObject.invokeMethod` are not modelled. A cyclic timer is its registry entry.

## Findings

| source | as written | input that shows it | evidently intended | confidence | as-written member | corrected member |
|---|---|---|---|---|---|---|
| canio/logger.py:61-67 | Before each event `iter_events` sleeps that event's full offset from the first event of the pass, and does not subtract the time already slept. So the replay drifts later and later. | Timestamps 0.0, 0.5 and 1.0 replayed at speed 2.0: the third event is due 0.5 s into the pass, but 0.75 s have been slept before it. | Sleep only what is still missing, so each event is reached at its scaled offset. | not executed | Logger.ReplayDriftExample | Logger.PacedTiming |

`Logger.IterEvents` keeps the pacing as written, because that is what the replay does. `Logger.PacedSleep` and `Logger.PacedElapsed` define the intended pacing. `Logger.PacedTiming` proves that, for a chronological recording at a positive speed, the intended pacing reaches every event at its scaled offset.
