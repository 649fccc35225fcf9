# Celestial bridge simulator: a verified model of its panel link and game core

Celestial is a starship bridge simulator. A Go backend runs the universe and serves six bridge
stations. ESP32 hardware panels join it over a newline-delimited JSON TCP link, and a Python
test client poses as a panel to exercise that link. This project models the deterministic core
of the three programs in Dafny and proves what each part promises.

| Dafny module | file | models |
|---|---|---|
| `Framing` | framing.dfy | the newline framing that all three programs apply to a byte stream |
| `PanelTester` | panel_tester.dfy | the test client's receive buffer, the message list and its correlation by type, the sends, and the pass/fail rules of the exercises, the stress test and the summary |
| `Firmware` | firmware.dfy | the panel firmware: character framing, message dispatch, device-type parsing, the bounded error log, configuration loading into the 32-slot device table, output routing, button debounce, and the LED bar, seven-segment and RGB strip drivers |
| `TcpServer` | tcp_server.dfy | the backend's panel sessions: the reader loop, id latching, the configuration gate, the bounded output queue and its writer, and the session timeout |
| `PanelManager` | panel_manager.dfy | the panel registry: default panels, online/offline/status/input transitions, device-to-action tables and value normalisation |
| `Stations` | stations.dfy | the station registry, permissions, the handler gate and the per-station input validators |
| `StationHandlers` | station_handlers.dfy | the per-station state filters and the ship-system handlers (repair, emergency power, startup, shield and weapon power) |
| `Objects` | objects.dfy | objects and ships: damage, systems, power, weapons and the autopilot state |
| `Universe` | universe.dfy | the object, ship and effect registries, the id counter, effect expiry, removal of destroyed objects, settings, the weapon guard and the heading autopilot |
| `Physics` | physics.dfy | the physics engine's object list |
| `Scripting` | scripting.dfy | trigger and mission bookkeeping of the Lua engine |
| `Config` | config.dfy | configuration defaults, validation, the decision order of loading, and the tick duration |
| `MathUtils` | math_utils.dfy | `Clamp` and the zero-length cases of vector and quaternion normalisation |
| `Values`, `Text`, `Messages`, `Wrappers` | values.dfy, text.dfy, messages.dfy, wrappers.dfy | dynamically typed values (Go `interface{}`), decimal formatting, the shared message records, and `Option` |

Objects the source changes in place are classes with `modifies` clauses: the test client, the
firmware panel and its drivers, TCP sessions and the server, the panel and station managers,
objects and ships, the universe, the physics engine and the Lua engine. Each state-changing
method states its new state through a pure function of the old state, and the lemmas about
those functions carry the properties. Go map iteration order is unspecified. Loops over maps
therefore pick an arbitrary remaining key, and their contracts hold for every order.

Several quirks of the source are proved as written. `IsExpired` can never hold. The test
summary's marker is the empty string, so no result ever counts as failed. With the shipped
permission lists, almost no station input passes both the permission check and its validator.
A client timeout equal to the heartbeat interval is accepted. `SetAlertLevel` reports the
level before clamping. Completing an objective twice marks it twice.

## Model

| member | source | states |
|---|---|---|
| Config.ValidateConfig | backend/config/config.go:193-231 | none exactly when ports, tick rate, heartbeat, timeout, panel count and log level all pass; otherwise, for each check, when every earlier check passes and that one fails, the result is that check's error with the offending value |
| Config.CheckLogLevel | backend/config/config.go:218-228 | the membership loop finds the level exactly when it is one of debug, info, warn, error |
| Config.DefaultConfigIsValid | backend/config/config.go:87-147 | the shipped default configuration passes validation |
| Config.EqualTimeoutAccepted | backend/config/config.go:210-212 | a client timeout equal to the heartbeat interval is accepted, although the message says it must be greater |
| Config.Load | backend/config/config.go:149-174 | a missing file yields the saved defaults (or a creation error), unreadable/unparsable text an error, parsed text its validation outcome |
| Config.LoadedConfigsAreValid | backend/config/config.go:149-174 | every configuration Load returns passes validation |
| Config.TickDurationMs | backend/config/config.go:250-252 | the truncated quotient 1000 / tick rate, between 1 and 1000 ms for every valid rate |
| Config.DefaultTickDuration | backend/config/config.go:250-252 | example: the default 60 Hz tick lasts 16 ms |
| Config.ValidTimeoutCoversHeartbeat | backend/config/config.go:254-260 | for a valid configuration the client timeout is at least the heartbeat period, which is at least one second |
| Config.GoDiv | backend/config/config.go:250-252 | Go integer division truncates toward zero: the magnitude is the quotient of the magnitudes and the sign follows the operands, agreeing with Euclidean division for non-negative operands |
| MathUtils.Clamp | backend/utils/math.go:71-79 | below the lower bound gives the lower bound, above the upper gives the upper, in range is unchanged; with ordered bounds the result is in range |
| MathUtils.ClampIdempotent | backend/utils/math.go:71-79 | clamping twice equals clamping once |
| MathUtils.ClampFixedPoints | backend/utils/math.go:71-79 | clamp leaves a value unchanged exactly when it lies within the bounds |
| MathUtils.Normalize | backend/utils/math.go:51-57 | the zero vector stays zero; any other vector times its length gives back the input |
| MathUtils.NormalizeQuaternion | backend/utils/math.go:129-135 | a zero quaternion becomes the identity rotation; any other times its norm gives back the input |
| Framing.FirstNewline | esp32-panels/test_panel.py:63-64 | the position of the first '\n', with no '\n' before it |
| Framing.FeedAppend | esp32-panels/test_panel.py:62-64 | framing two chunks one after the other gives the lines and leftover of framing their concatenation |
| Framing.FeedNoNewline | esp32-panels/src/CelestialPanel.cpp:78-86 | input without '\n' yields no line and only grows the buffer |
| Framing.FeedReassembles | esp32-panels/test_panel.py:62-64 | the extracted lines, each with its '\n', followed by the leftover spell out the old buffer followed by the input |
| Framing.FeedLinesClean | esp32-panels/src/CelestialPanel.cpp:78-86 | from a newline-free buffer no line and no leftover holds a '\n' |
| Framing.SplitFirstLine | esp32-panels/test_panel.py:63-64 | splitting at the first '\n' and framing the remainder is the same as framing everything |
| Framing.FeedFromEmpty | esp32-panels/test_panel.py:62 | a newline-free buffer can be treated as the start of the input |
| Framing.FeedTerminated | backend/server/tcp.go:171 | newline-free frames, each written with one '\n', are cut back into exactly those frames with nothing left over |
| PanelTester.TrimLeft | esp32-panels/test_panel.py:65 | a suffix of the input whose removed prefix is all whitespace and which starts with a non-space |
| PanelTester.TrimRight | esp32-panels/test_panel.py:65 | a prefix of the input whose removed suffix is all whitespace and which ends with a non-space |
| PanelTester.Strip | esp32-panels/test_panel.py:65-67 | empty exactly for an all-whitespace line; otherwise it starts and ends with a non-space |
| PanelTester.AcceptAllAppend | esp32-panels/test_panel.py:63-70 | the kept messages of two line lists are the kept messages of each, in order |
| PanelTester.BlankLinesDropped | esp32-panels/test_panel.py:65 | a whitespace-only line yields no message |
| PanelTester.UndecodableLineSkipped | esp32-panels/test_panel.py:66-70 | a line that fails to decode is dropped and the following lines are still kept |
| PanelTester.ChunkingIrrelevant | esp32-panels/test_panel.py:62-70 | two chunks give the same messages and leftover as their concatenation |
| PanelTester.StopIndex | esp32-panels/test_panel.py:56-76 | the receiver runs through timeouts and non-empty data and stops at the first empty read or failure |
| PanelTester.FindType | esp32-panels/test_panel.py:93-95 | the index of the oldest message of the type, or none exactly when no message has it |
| PanelTester.TakeFirst | esp32-panels/test_panel.py:93-95 | the oldest message of the type and the queue without exactly that entry, the rest in order |
| PanelTester.WaitTimeoutRemovesNothing | esp32-panels/test_panel.py:92-98 | a wait that returns None removes nothing: the queue ends as it began plus what arrived |
| PanelTester.WaitFoundIsOneScan | esp32-panels/test_panel.py:92-96 | a successful wait is one scan of the queue as it stood at some poll |
| PanelTester.CorrelationExample | esp32-panels/test_panel.py:93-95 | example: replies are consumed by type in arrival order |
| PanelTester.PercentOrder | esp32-panels/test_panel.py:159-162 | a percentage x / d * 100 compares with a bound as 100 x compares with bound * d |
| PanelTester.ExercisePassIff | esp32-panels/test_panel.py:159-162 | an exercise passes exactly when at least nine sends in ten succeeded |
| PanelTester.ExerciseBoundary | esp32-panels/test_panel.py:162 | example: 9 of 10 passes and 8 of 10 fails |
| PanelTester.StressPassIff | esp32-panels/test_panel.py:385-391 | the stress test passes exactly when fewer than one send in twenty failed |
| PanelTester.StressBoundary | esp32-panels/test_panel.py:385-391 | example: an error rate of exactly 5% fails; a run that sent nothing has rate 0 |
| PanelTester.CountPassed | esp32-panels/test_panel.py:405-410 | the passed count never exceeds the number of results |
| PanelTester.EveryResultCountsAsPassed | esp32-panels/test_panel.py:163 | the marker is the empty string, so every result line counts as passed |
| PanelTester.StressCountAdvances | esp32-panels/test_panel.py:361-381 | the raw_value count starts at 0 and grows by one exactly after a send that went through |
| PanelTester.Tester.constructor | esp32-panels/test_panel.py:20-27 | not connected, empty buffer, message list and results |
| PanelTester.Tester.Connect | esp32-panels/test_panel.py:29-45 | succeeds exactly when the server is reachable; a failure leaves the connected flag untouched |
| PanelTester.Tester.Disconnect | esp32-panels/test_panel.py:47-52 | the socket is closed and the receiver stops |
| PanelTester.Tester.SendMessage | esp32-panels/test_panel.py:78-86 | the JSON text plus exactly one '\n' goes on the wire, or false and nothing written |
| PanelTester.Tester.FeedChunk | esp32-panels/test_panel.py:62-70 | the buffer keeps only the unterminated tail and the kept messages of the complete lines are appended in order |
| PanelTester.Tester.CutLine | esp32-panels/test_panel.py:64-70 | the first line leaves the buffer and its message, if kept, is appended |
| PanelTester.Tester.AcceptLine | esp32-panels/test_panel.py:66-70 | the queue grows by Accept of the line: nothing for a blank or undecodable line, else its message |
| PanelTester.Tester.ReceiveLoop | esp32-panels/test_panel.py:54-76 | the receiver gets what one chunk holding all the data before the first empty read or failure would give |
| PanelTester.Tester.ScanQueue | esp32-panels/test_panel.py:93-95 | the scan stops at the oldest message of the type, the index FindType gives, and runs to the end exactly when there is none |
| PanelTester.Tester.WaitForMessage | esp32-panels/test_panel.py:88-98 | the result and the queue are those of the reference wait: scan oldest first, pop the hit, else let the next batch arrive |
| PanelTester.Tester.SendAll | esp32-panels/test_panel.py:137-157 | counts the sends that went through and writes exactly their frames, in order |
| PanelTester.Tester.TestPanelConnection | esp32-panels/test_panel.py:100-130 | a failed heartbeat logs a failure; otherwise the test passes exactly when a panel_config arrives in the budget, with one result line |
| PanelTester.Tester.TestInputDevice | esp32-panels/test_panel.py:132-165 | one panel_input per value; passes exactly when the success rate is at least 90 |
| PanelTester.Tester.TestOutputDevice | esp32-panels/test_panel.py:167-200 | one panel_output per command; passes exactly when the success rate is at least 90 |
| PanelTester.Tester.RunStressTest | esp32-panels/test_panel.py:353-394 | a failed heartbeat leaves one failure line and nothing on the wire; a missing configuration leaves the heartbeat and the connection line; otherwise the stress inputs follow on the wire and the stress line follows, passing exactly when the error rate is below 5; the queue is that of the wait |
| PanelTester.Tester.StressRound | esp32-panels/test_panel.py:364-394 | every burst input is sent once in order, the delivered ones counted; the result line carries the error rate and the pass marker exactly when the rate is below 5 |
| PanelTester.Tester.TestSummary | esp32-panels/test_panel.py:396-417 | passed plus failed is the number of results; the pass rate exists only for a non-empty list |
| Firmware.ParseDeviceType | esp32-panels/src/CelestialPanel.cpp:349-361 | exactly the ten configuration names parse to a known type, whose name is the input; anything else is unknown |
| Firmware.ParseTypeName | esp32-panels/src/CelestialPanel.cpp:349-361 | parsing a known type's name gives that type back |
| Firmware.InputOutputSplit | esp32-panels/src/CelestialPanel.h:30-41 | the types up to the slider (button, potentiometer, encoder, rotary switch, slider) are the input types |
| Firmware.Installed | esp32-panels/src/CelestialPanel.cpp:241-277 | the rows of the known specs, at most one per spec, each of a known type and enabled |
| Firmware.InstalledPrefix | esp32-panels/src/CelestialPanel.cpp:241-277 | installing a prefix of the specs gives a prefix of the rows |
| Firmware.FindDevice | esp32-panels/src/CelestialPanel.cpp:295-307 | the index of the first enabled row with the id, or none exactly when no enabled row has it |
| Firmware.RouteFor | esp32-panels/src/CelestialPanel.cpp:295-307 | a command reaches only the first enabled row with the id, only when its slot holds an output driver; "set_value" goes to setValue, any other command to setCommand, with the value unchanged |
| Firmware.StaleOutputSlotIsRouted | esp32-panels/src/CelestialPanel.cpp:298-301 | routing looks at the slot's output pointer, so a button row in a slot that once held an output driver still receives commands |
| Firmware.LoadSpec | esp32-panels/src/CelestialPanel.cpp:241-277 | one pass of the configuration loop keeps the table's shape |
| Firmware.LoadFrom | esp32-panels/src/CelestialPanel.cpp:238-278 | the configuration loop stops when the specs run out or the table is full and keeps the table's shape |
| Firmware.LoadStep | esp32-panels/src/CelestialPanel.cpp:241-277 | loading one spec extends the taken rows by that spec's entry and gives its slot a driver of its kind |
| Firmware.LoadFromCorrect | esp32-panels/src/CelestialPanel.cpp:238-278 | the loop ends with the rows of the known specs in order, as many as fit in 32 slots, each with a driver of its kind, other slots' pointers as before |
| Firmware.LoadTableCorrect | esp32-panels/src/CelestialPanel.cpp:238-278 | loading over any earlier table restarts at slot 0 and meets the same description |
| Firmware.Panel.constructor | esp32-panels/src/CelestialPanel.cpp:5-28 | offline, not configured, no devices, no errors, every slot disabled and without drivers |
| Firmware.Panel.ReadAvailable | esp32-panels/src/CelestialPanel.cpp:78-86 | the byte loop yields exactly the lines newline framing cuts from buffer plus input, and keeps the unterminated rest as the buffer |
| Firmware.Panel.AddError | esp32-panels/src/CelestialPanel.cpp:337-343 | an error is appended while fewer than eight are logged and dropped otherwise |
| Firmware.Panel.ClearErrors | esp32-panels/src/CelestialPanel.cpp:345-347 | the error log becomes empty |
| Firmware.Panel.HandleConfiguration | esp32-panels/src/CelestialPanel.cpp:225-285 | a configuration for another panel changes nothing; otherwise the name (or "Unknown Panel"), the loaded table, configured, online iff no error is logged else partial, and a status report |
| Firmware.Panel.LoadTable | esp32-panels/src/CelestialPanel.cpp:235-278 | the device table becomes the configuration loop's result over the previous slots |
| Firmware.Panel.LoadDevice | esp32-panels/src/CelestialPanel.cpp:241-277 | one loop pass changes the table as LoadSpec says |
| Firmware.Panel.HandleOutputCommand | esp32-panels/src/CelestialPanel.cpp:287-308 | the route is RouteFor over the taken slots for this panel's commands, and none for another panel's |
| Firmware.Panel.ProcessMessage | esp32-panels/src/CelestialPanel.cpp:205-223 | an undecodable line, a heartbeat acknowledgement or any other type change nothing; an output command is routed; a configuration for another panel changes nothing, one for this panel sets name, table and status as HandleConfiguration does and reports status |
| Firmware.U32Sub | esp32-panels/src/CelestialPanel.cpp:446-461 | unsigned 32-bit subtraction: the difference, plus 2^32 when it would be negative |
| Firmware.DebounceAcrossRollover | esp32-panels/src/CelestialPanel.cpp:453 | example: elapsed time is still right across the millis() rollover |
| Firmware.ButtonDevice.constructor | esp32-panels/src/CelestialPanel.cpp:422-434 | the configured debounce time narrowed into 16 bits, both states start at the pin's reading, no debounce time, no pending change |
| Firmware.ButtonDevice.Update | esp32-panels/src/CelestialPanel.cpp:446-461 | the state changes exactly when the reading repeats the previous sample, that sample is more than debounceMs old and the reading differs from the state; a change raises the flag |
| Firmware.ButtonDevice.HasChanged | esp32-panels/src/CelestialPanel.cpp:440-444 | reports the pending flag and clears it |
| Firmware.ToByte | esp32-panels/src/CelestialPanel.cpp:579-584 | within 0..255 a float stored into a byte is its floor |
| Firmware.ActiveLeds | esp32-panels/src/CelestialPanel.cpp:673-676 | a level in [0, 1] lights between 0 and ledCount LEDs |
| Firmware.LedBarDevice.constructor | esp32-panels/src/CelestialPanel.cpp:658-671 | the LED count is the configured count reduced to 8 bits, level 0 and every LED off |
| Firmware.LedBarDevice.SetValue | esp32-panels/src/CelestialPanel.cpp:673-682 | the level is the value clamped to [0, 1] and exactly the LEDs below (int)(level * count) are lit |
| Firmware.LedBarDevice.SetPattern | esp32-panels/src/CelestialPanel.cpp:687-692 | the first min(count, pattern length) LEDs follow the pattern; the rest keep their state |
| Firmware.LedBarDevice.SetCommand | esp32-panels/src/CelestialPanel.cpp:684-698 | handled exactly for "set_level", which acts as SetValue, and "set_pattern", which acts as SetPattern and keeps the level; any other command changes nothing |
| Firmware.SevenSegmentDevice.constructor | esp32-panels/src/CelestialPanel.cpp:616-627 | digits and brightness are the configured values reduced to 8 bits, empty text, every decimal point off |
| Firmware.SevenSegmentDevice.SetValue | esp32-panels/src/CelestialPanel.cpp:629-632 | shows the value truncated toward zero, in decimal |
| Firmware.SevenSegmentDevice.SetDecimal | esp32-panels/src/CelestialPanel.cpp:640-647 | only a position in 0..7 is written; every other decimal point stays |
| Firmware.SevenSegmentDevice.SetCommand | esp32-panels/src/CelestialPanel.cpp:634-652 | handled exactly for set_text, set_brightness and set_decimal; each sets its own field (set_decimal as SetDecimal) and keeps the other two; any other command changes nothing |
| Firmware.RgbStripDevice.constructor | esp32-panels/src/CelestialPanel.cpp:562-577 | the pixel count is the configured count reduced to 16 bits and the strip starts cleared |
| Firmware.RgbStripDevice.Fill | esp32-panels/src/CelestialPanel.cpp:579-584 | every pixel gets the colour |
| Firmware.RgbStripDevice.SetValue | esp32-panels/src/CelestialPanel.cpp:579-584 | every pixel becomes the grey (uint8_t)(value * 255) |
| Firmware.RgbStripDevice.SetAll | esp32-panels/src/CelestialPanel.cpp:587-593 | a colour of three or more entries fills the strip; a shorter one changes nothing |
| Firmware.RgbStripDevice.SetColors | esp32-panels/src/CelestialPanel.cpp:594-602 | pixel i takes colour i when there is one with three entries; other pixels keep theirs |
| Firmware.RgbStripDevice.SetCommand | esp32-panels/src/CelestialPanel.cpp:586-607 | handled exactly for set_all, which acts as SetAll, and set_colors, which acts as SetColors; any other command changes nothing |
| TcpServer.Enqueue | backend/server/tcp.go:264-276 | a send keeps what is queued and adds the frame at the end exactly while fewer than 100 are queued; a full queue drops it, so the capacity is never exceeded |
| TcpServer.EnqueueKeepsValid | backend/server/tcp.go:264-276 | sending a newline-free frame keeps every queued frame newline-free and the queue within capacity |
| TcpServer.Written | backend/server/tcp.go:162-178 | a drain writes at most the queued frames, and fewer exactly when a write inside the queue fails |
| TcpServer.DropCR | backend/server/tcp.go:141-142 | the scanner drops at most one character, and drops one exactly when the line ends in a carriage return |
| TcpServer.Parsed | backend/server/tcp.go:141-155 | at most one message per line, each the decoding of a non-empty line that decodes, and none when no line does |
| TcpServer.SeenAfter | backend/server/tcp.go:153 | the last-seen time is the start time when no line was acted on, and the reading time of the last line when that one was acted on |
| TcpServer.ScanTerminated | backend/server/tcp.go:171 | newline-free frames without a trailing carriage return, each written with one '\n', scan back as exactly those frames |
| TcpServer.AllOffline | backend/server/tcp.go:109-124 | the registry keeps its keys; exactly the given panels go offline and nothing else changes |
| TcpServer.AllOfflineStep | backend/server/tcp.go:117-121 | marking one more panel offline extends the offline set by it |
| TcpServer.Latched | backend/server/tcp.go:203-207 | an unnamed session takes the id and registers under it; a named one is unchanged |
| TcpServer.Closed | backend/server/tcp.go:129-134 | the session is no longer registered and its panel, if known, is offline |
| TcpServer.MessageStepKeeps | backend/server/tcp.go:180-262 | one message never changes a latched id or unconfigures the session, only appends events, and keeps a valid queue valid |
| TcpServer.RunKeeps | backend/server/tcp.go:141-155 | over any lines the latched id and the configured flag stay, the event log only grows, the queue stays valid and the last-seen time is SeenAfter |
| TcpServer.Client.constructor | backend/server/tcp.go:85-91 | no panel id, seen now, unconfigured, nothing queued or written, writer running |
| TcpServer.Client.SendMessage | backend/server/tcp.go:264-276 | the queue becomes Enqueue of the old queue, and stays valid for a newline-free frame |
| TcpServer.Client.OutputHandler | backend/server/tcp.go:162-178 | the writer takes the queued frames in order and writes each with '\n' up to the first failed write, which takes that frame and stops the writer; a stopped writer does nothing |
| TcpServer.Server.constructor | backend/server/tcp.go:32-38 | no sessions, the given panel registry |
| TcpServer.Server.HandleHeartbeat | backend/server/tcp.go:196-229 | an undecodable heartbeat changes nothing; otherwise an unnamed session latches the client id, registers and, when a configuration exists, queues it and becomes configured; the reply is queued and the panel marked online |
| TcpServer.Server.HandleStatus | backend/server/tcp.go:231-246 | an undecodable status changes nothing; otherwise an unnamed session latches the status's panel id and registers, and the report is recorded for the session's id |
| TcpServer.Server.HandleInput | backend/server/tcp.go:248-262 | nothing happens before configuration or for undecodable input; otherwise the input, re-addressed to the session's panel, is recorded and its event, if any, is handed on |
| TcpServer.Server.HandleMessage | backend/server/tcp.go:180-194 | the new session state is MessageStep: the heartbeat, status or input handler's effect by type, none for other types; a latched panel id and the configured flag are never lost |
| TcpServer.Server.ReadLine | backend/server/tcp.go:141-155 | the new session state is LineStep: an empty or undecodable line is skipped; any other refreshes the last-seen time and is handled |
| TcpServer.Server.HandleConnection | backend/server/tcp.go:126-160 | the final session state is Closed of Run over the scanned lines: each line's LineStep in order, then the entry removed and the panel offline; the messages handled are Parsed of the lines and the last-seen time SeenAfter |
| TcpServer.Server.CheckClientHeartbeats | backend/server/tcp.go:109-124 | exactly the sessions last seen more than 60 seconds ago are removed and their panels marked offline |
| PanelManager.RegisteredPanels | backend/panels/manager.go:149-161 | registering a list of configurations stores exactly their ids in both maps, each panel under its own id, offline, with no device states or errors, holding the configuration stored under that id |
| PanelManager.DefaultRegistry | backend/panels/manager.go:42-161 | the five default panels are registered under their ids, offline and empty |
| PanelManager.DeviceIndex | backend/panels/manager.go:223-224 | the index of the first device with the id, or none exactly when the configuration lists no such device |
| PanelManager.ActionFor | backend/panels/manager.go:222-240 | an unlisted device or a station without a table keeps its id; otherwise the station's table maps it, falling back to the id |
| PanelManager.NormalizedInUnit | backend/panels/manager.go:316-322 | a reading inside a proper knob range normalises into [0, 1], with the range ends at 0 and 1 |
| PanelManager.ValueFor | backend/panels/manager.go:313-338 | an unlisted device passes the value through; the first listed device decides: knobs normalise by min and max, encoders divide by steps, other types pass through |
| PanelManager.TacticalButtonsFire | backend/panels/manager.go:257-269 | example: both tactical fire buttons map to fire_weapon |
| PanelManager.HelmFallbacks | backend/panels/manager.go:242-255 | example: helm devices outside the table keep their ids |
| PanelManager.ThrottleScaling | backend/panels/manager.go:316-322 | example: the helm throttle maps 1023 to 1 and 0 to 0, and a non-number reads as 0 |
| PanelManager.DialAndButtonValues | backend/panels/manager.go:313-338 | example: the helm warp dial halves at 50 and a button value passes through |
| PanelManager.GameMasterActionsAreDeviceIds | backend/panels/manager.go:225-237 | the game master station has no table, so every device keeps its id |
| PanelManager.MapDeviceToAction | backend/panels/manager.go:222-240 | the loop over the devices returns ActionFor |
| PanelManager.ProcessDeviceValue | backend/panels/manager.go:313-338 | the loop over the devices returns ValueFor |
| PanelManager.OnlineFlag | backend/panels/manager.go:170-187 | going online or offline flips the flag of a registered panel only, changes no other panel and no key, and is a no-op for an unknown id |
| PanelManager.StatusCountsErrors | backend/panels/manager.go:189-198 | after a status report the error count equals the number of reported errors, and they are kept |
| PanelManager.InputGate | backend/panels/manager.go:200-219 | an event is produced exactly when the panel is registered and online; otherwise nothing changes, and when accepted the raw value is recorded and the event carries the panel's station |
| PanelManager.TransitionsKeepConsistency | backend/panels/manager.go:170-219 | every registry operation, including removal from both maps, keeps each panel tied to the configuration stored under its id |
| PanelManager.Manager.constructor | backend/panels/manager.go:30-40 | the registry holds exactly the default panels and is consistent |
| PanelManager.Manager.InitializeDefaultConfigurations | backend/panels/manager.go:42-161 | from empty maps, both maps hold the default configurations and their fresh panel states |
| PanelManager.Manager.GetPanelConfiguration | backend/panels/manager.go:164-168 | the stored configuration, or none exactly when the id has none |
| PanelManager.Manager.SetPanelOnline | backend/panels/manager.go:170-178 | the panel map becomes MarkedOnline of the old one at the given time |
| PanelManager.Manager.SetPanelOffline | backend/panels/manager.go:180-187 | the panel map becomes MarkedOffline of the old one |
| PanelManager.Manager.UpdatePanelStatus | backend/panels/manager.go:189-198 | the panel map becomes StatusRecorded of the old one |
| PanelManager.Manager.ProcessInput | backend/panels/manager.go:200-219 | the panel map becomes InputRecorded and the returned event is EventFor, both of the old map |
| PanelManager.Manager.GetOnlinePanels | backend/panels/manager.go:394-405 | each online panel's id exactly once and nothing else |
| PanelManager.Manager.UpdatePanelConfiguration | backend/panels/manager.go:407-417 | the configuration is always stored; a registered panel takes it with its name and station; consistency is kept |
| PanelManager.Manager.RemovePanel | backend/panels/manager.go:419-425 | the id leaves both maps and consistency is kept |
| Stations.StationsFromKeys | backend/stations/stations.go:134-136 | the registered types are exactly the types of the list, whether or not they repeat |
| Stations.StationsFromDistinct | backend/stations/stations.go:134-136 | registering stations of distinct types files each under its own type and nothing else |
| Stations.SixStations | backend/stations/stations.go:134-136 | six stations registered in order are each filed under their type |
| Stations.DefaultRegistry | backend/stations/stations.go:43-137 | the default registry holds the six stations, each under its own type |
| Stations.DefaultPermissions | backend/stations/stations.go:188-200 | with the shipped lists the Game Master is permitted everything, the helm exactly its four listed permissions (so not its own throttle), and an unknown station nothing |
| Stations.JsonAlertLevelRejected | backend/stations/stations.go:308-375 | a number decoded as a float never validates as an alert level or a message priority, which check for an int |
| Stations.DefaultCrewStationsRejectAll | backend/stations/stations.go:228-359 | with the shipped lists the helm, tactical, communication and logistics stations never pass both the permission and the validator |
| Stations.DefaultCaptainValidation | backend/stations/stations.go:228-254 | with the shipped lists the captain's one input that validates is a boolean startup sequence |
| Stations.DefaultValidation | backend/stations/stations.go:228-379 | with the shipped lists an input validates exactly when it is for the Game Master or is the captain's boolean startup sequence |
| Stations.ValidatePowerAllocation | backend/stations/stations.go:330-340 | accepted exactly when every allocation lies in [0, 1] and they total at most 1 |
| Stations.ValidateSystemPriorities | backend/stations/stations.go:349-357 | accepted exactly when every priority lies in 1..10 |
| Stations.ValidateLogisticsInput | backend/stations/stations.go:328-359 | accepted exactly when the action's value has the expected shape and passes its check |
| Stations.StationManager.constructor | backend/stations/stations.go:28-41 | the default registry, with a handler for each of the six stations |
| Stations.StationManager.InitializeStations | backend/stations/stations.go:43-137 | from an empty registry, the default stations registered in order |
| Stations.StationManager.HasPermission | backend/stations/stations.go:188-200 | true exactly when the station exists and lists the action or override_all |
| Stations.StationManager.HandleInput | backend/stations/stations.go:157-174 | handled exactly when the station exists, is active, has a handler and permits the action; then only its last update changes, otherwise nothing |
| Stations.StationManager.SetStationActive | backend/stations/stations.go:208-215 | a registered station takes the flag; an unknown one changes nothing |
| Stations.StationManager.ValidateInput | backend/stations/stations.go:228-254 | true exactly when the station is registered and active, permits the action, and its own validator accepts the value |
| StationHandlers.FilterExact | backend/stations/handlers.go:383-475 | the station filters keep exactly the entries their test accepts and never grow the list |
| StationHandlers.FilterAppend | backend/stations/handlers.go:383-475 | filtering a concatenation is the concatenation of the filtered parts, so state order is kept |
| StationHandlers.HelmView | backend/stations/handlers.go:383-401 | the helm sees exactly the player ships, planets and stations, in state order, with no effects and no full state |
| StationHandlers.TacticalView | backend/stations/handlers.go:403-431 | tactical sees exactly the ships, torpedoes and mines and the phaser, torpedo-trail and explosion effects |
| StationHandlers.CommunicationView | backend/stations/handlers.go:433-455 | communications sees the ships and stations in order, each with velocity, health and shield zeroed and nothing else changed |
| StationHandlers.LogisticsView | backend/stations/handlers.go:457-475 | logistics sees the first player ship alone, or nothing exactly when there is none |
| StationHandlers.FullViews | backend/stations/stations.go:176-186 | the captain, the Game Master and any station without a filter get the whole state and no filtered objects |
| StationHandlers.RepairBounds | backend/stations/handlers.go:203-213 | a repair adds at most 10 health within the maximum, comes online exactly when it was or health passes 50, and changes nothing else |
| StationHandlers.HandleRepairSystem | backend/stations/handlers.go:203-213 | a string naming a known system repairs that system; any other value changes nothing |
| StationHandlers.BoostedOnlyCritical | backend/stations/handlers.go:263-272 | emergency power sets efficiency 1.2 on exactly the critical systems, changes nothing else, and applying it twice equals once |
| StationHandlers.HandleEmergencyPower | backend/stations/handlers.go:263-272 | for any boolean value the systems become Boosted and the flag is stored; any other value changes nothing |
| StationHandlers.StartedAllOnline | backend/stations/handlers.go:274-283 | after startup every system is online at full health with nothing else changed |
| StationHandlers.HandleShipStartup | backend/stations/handlers.go:274-283 | only the value true starts the ship: systems Started, power and shield at their maxima; otherwise nothing changes |
| StationHandlers.HandleSystemPower | backend/stations/handlers.go:92-104 | a float sets the efficiency of the shields or weapons system, read as Go's zero system when missing; other values change nothing |
| StationHandlers.MissingSystemAppears | backend/stations/handlers.go:92-104 | setting power on a missing system adds a nameless, offline system that draws no power |
| Objects.AbsorbShieldFirst | backend/universe/objects.go:379-389 | for non-negative inputs shield and hull stay non-negative, the hull is hit only once the shield is down, and the loss is min(damage, shield + hull) |
| Objects.NegativeDamageHealsShield | backend/universe/objects.go:379-389 | negative damage raises a raised shield and leaves the hull alone |
| Objects.Body.constructor | backend/universe/objects.go:116-141 | health and power 100, no shield, no time limit (TTL -1), not static, no properties |
| Objects.Body.IsExpired | backend/universe/objects.go:375-377 | never true: TTL > 0 && TTL <= 0 is unsatisfiable |
| Objects.Body.TakeDamage | backend/universe/objects.go:379-389 | shield and hull become those of the shield-then-hull rule |
| Objects.Body.ApplyTorque | backend/universe/objects.go:367-369 | the angular velocity grows by one hundredth of the torque |
| Objects.SystemOrZero | backend/universe/objects.go:413 | a missing system reads as Go's zero value |
| Objects.DrawMapStep | backend/universe/objects.go:396-402 | adding one system to a partial sum adds its draw |
| Objects.PowerAfter | backend/universe/objects.go:404-411 | power never exceeds its maximum and, for a non-negative maximum, regeneration and step, stays in [0, max] |
| Objects.ShedOneChangesAtMostOne | backend/universe/objects.go:420-428 | shedding switches off at most one system, which was online and not critical, and leaves every other system unchanged |
| Objects.ShieldAfter | backend/universe/objects.go:413-417 | a shield below its maximum never passes it; a full shield or a shield system offline or at half health or less leaves it unchanged |
| Objects.FirstWeapon | backend/universe/objects.go:431-441 | the index of the first weapon with the id, or none exactly when no weapon has it |
| Objects.Fired | backend/universe/objects.go:444-460 | the weapon stamped with the time, one round spent when ammunition is positive, nothing else changed |
| Objects.FiredAmmunition | backend/universe/objects.go:450-452 | unlimited ammunition (-1) stays unlimited; counted ammunition drops by one and stays non-negative |
| Objects.WithMode | backend/universe/objects.go:498-518 | enabled with the mode; only the target field matching the mode changes, and only for a target of the right type |
| Objects.Manual | backend/universe/objects.go:520-527 | disabled, manual, every target cleared; collision avoidance and speed kept |
| Objects.ManualForgetsMode | backend/universe/objects.go:498-527 | setting any mode and then disabling equals disabling |
| Objects.Ship.PlayerShip | backend/universe/objects.go:143-227 | the player ship's fixed values, its seven systems and two weapons, autopilot off with collision avoidance |
| Objects.Ship.PowerDraw | backend/universe/objects.go:396-402 | the draw of all online systems, summed in any map order |
| Objects.Ship.ShutdownNonCriticalSystems | backend/universe/objects.go:420-428 | some online non-critical system is switched off, or nothing when there is none |
| Objects.Ship.UpdateSystems | backend/universe/objects.go:395-418 | on a deficit one system is shed; power and shield become PowerAfter and ShieldAfter of the old values |
| Objects.Ship.SpendPower | backend/universe/objects.go:408-409 | the new power is PowerAfter of the old power, the draw and the regeneration rate |
| Objects.Ship.RegenerateShield | backend/universe/objects.go:411-417 | the new shield is ShieldAfter of the old shield and the shield system as it stands |
| Objects.Ship.CanFireWeapon | backend/universe/objects.go:430-442 | true exactly when the first weapon with the id is cooled down, loaded or unlimited, affordable and the weapons system online |
| Objects.Ship.FireWeapon | backend/universe/objects.go:444-460 | a weapon that cannot fire changes nothing; otherwise that weapon is Fired and its power cost is taken |
| Objects.Ship.RepairSystem | backend/universe/objects.go:472-477 | a known system's health becomes min(max, health + amount); unknown names change nothing |
| Objects.Ship.DamageSystem | backend/universe/objects.go:479-496 | health max(0, health - damage), offline at zero, one report repairable while health remains; unknown names change nothing |
| Objects.Ship.SetAutoPilot | backend/universe/objects.go:498-518 | the autopilot becomes WithMode of the old one |
| Objects.Ship.DisableAutoPilot | backend/universe/objects.go:520-527 | the autopilot becomes Manual of the old one |
| Objects.Ship.SystemEfficiency | backend/universe/objects.go:462-470 | zero for a missing or offline system |
| Universe.FormatIdInjective | backend/universe/universe.go:80-83 | ids made with the same prefix from different counter values differ |
| Universe.SurvivorsExact | backend/universe/universe.go:303-318 | an object survives removal exactly when its health is above zero |
| Universe.SurvivorsLeft | backend/universe/universe.go:303-317 | removing exactly the expired or destroyed ids leaves exactly the surviving objects |
| Universe.World.constructor | backend/universe/universe.go:39-56 | empty registries and physics list, no player ship, time acceleration 1, alert level 0, counter 1, no events |
| Universe.World.GenerateId | backend/universe/universe.go:80-83 | the counter is incremented before use and the id is prefix, underscore and the new counter in decimal |
| Universe.World.AddObject | backend/universe/universe.go:85-92 | the object is stored under its id, appended to the physics list, and an object_added event is fired |
| Universe.World.AddShip | backend/universe/universe.go:94-102 | the ship and its embedded object are stored under the ship's id, the object appended to the physics list, and a ship_added event is fired |
| Universe.World.RemoveObject | backend/universe/universe.go:104-114 | a known id leaves the objects and ships maps and the physics list with one object_removed event; an unknown id changes nothing |
| Universe.World.GetPlayerShip | backend/universe/universe.go:128-130 | the ship registered under the player ship id, or none when there is no such ship |
| Universe.World.UpdateEffects | backend/universe/universe.go:292-301 | every effect loses the time step and exactly those left with no time are deleted |
| Universe.World.CreateExplosion | backend/universe/universe.go:442-461 | a three-second explosion effect at the position under a freshly generated id |
| Universe.World.ExpiredIds | backend/universe/universe.go:304-310 | each expired or destroyed object's id, each exactly once |
| Universe.World.Retire | backend/universe/universe.go:313-316 | a registered object leaves both maps with one object_removed event and its body leaves the physics list; a destroyed one first explodes at its position as a three-second effect under the next explosion id; an unknown id changes nothing |
| Universe.World.RetireAll | backend/universe/universe.go:312-317 | the distinct destroyed ids leave both maps in order with one object_removed event each, their bodies leave the physics list in that order, the counter moves on by their number, and the k-th explodes at its position under the k-th next explosion id |
| Universe.World.RemoveExpiredObjects | backend/universe/universe.go:303-318 | exactly the destroyed objects go, from the ships too, each with one object_removed event, one explosion at its position under consecutive explosion ids, and its body out of the physics list |
| Universe.ExplosionIdInjective | backend/universe/universe.go:80-83 | different counter values give different explosion ids |
| Universe.ExplosionsExact | backend/universe/universe.go:312-317 | after explosions at positions ps from counter n, the id for counter n+k holds the k-th position's three-second explosion and every other effect is kept |
| Universe.ExplosionsSnoc | backend/universe/universe.go:313-315 | one more destroyed object adds exactly one effect, its explosion under the next counter's id |
| Universe.UnlistedAllSnoc | backend/universe/universe.go:316 | one more removal cuts that body's id from the physics list left by the earlier ones |
| Universe.World.SetTimeAcceleration | backend/universe/universe.go:463-467 | the factor is stored clamped to [0.1, 10] |
| Universe.World.SetAlertLevel | backend/universe/universe.go:469-474 | the level is stored clamped to 0..3 while the event carries the level as given |
| Universe.World.FireWeapon | backend/universe/universe.go:347-355 | an unknown ship or a weapon that cannot fire yields false with the ship unchanged; otherwise the weapon is fired and its power cost taken |
| Universe.World.WrapHeading | backend/universe/universe.go:204-209 | the result is the loops' Wrap of the difference: whole turns away from it, in (-180, 180] when it was above 180, in [-180, 180) when below -180, and the difference itself otherwise |
| Universe.WrapCorrect | backend/universe/universe.go:204-209 | the two loops end whole turns away from the difference, within the bound the loop that ran leaves |
| Universe.WrapUnique | backend/universe/universe.go:204-209 | at most one value is whole turns away from the difference and within those bounds, so the wrapped difference is determined |
| Universe.World.AutoPilotToHeading | backend/universe/universe.go:200-224 | with d the wrapped difference, \|d\| < 1 disables the autopilot and applies no torque; otherwise the autopilot stays and the angular velocity about Y grows by the sign of d times turn rate, engine efficiency, the time step and ApplyTorque's factor 0.01 |
| Universe.WrapExamples | backend/universe/universe.go:204-209 | example: 190 wraps to -170, 540 to 180 and -540 to -180, so the two loops settle on opposite ends of the half-turn |
| Physics.FirstWithId | backend/universe/physics.go:43-50 | the index of the first entry with the id, with no earlier entry carrying it, or none exactly when no entry has it |
| Physics.OfTypeExact | backend/universe/physics.go:435-443 | the filter keeps only entries of the type and every entry of the type, and never grows the list |
| Physics.OfTypeAppend | backend/universe/physics.go:435-443 | filtering a concatenation is the concatenation of the filtered parts, so list order is kept |
| Physics.Engine.constructor | backend/universe/physics.go:27-37 | the object list starts empty |
| Physics.Engine.AddObject | backend/universe/physics.go:39-41 | the object is appended after the existing entries |
| Physics.Engine.RemoveObject | backend/universe/physics.go:43-50 | the first entry with the object's id is cut out, the rest kept in order; without one the list is unchanged |
| Physics.Unlisted | backend/universe/physics.go:43-50 | without an entry of the id the list is unchanged; otherwise it is one shorter, with the entries before and after the first such entry kept in order |
| Physics.Engine.FindObjectById | backend/universe/physics.go:348-355 | the first entry with the id, or none when no entry has it |
| Physics.Engine.GetObjectsByType | backend/universe/physics.go:435-443 | the entries of the type, in list order |
| Scripting.MarkObjective | backend/scripting/lua.go:572-583 | the list keeps its length; an index inside it gets the completion mark in front, every other entry is untouched, and an index outside changes nothing |
| Scripting.MarkTwice | backend/scripting/lua.go:577-579 | completing an objective twice marks it twice, since the existing mark is not checked |
| Scripting.StartActivates | backend/scripting/lua.go:526-548 | starting a mission, even over an existing one of the same name, adds exactly that name to the active set |
| Scripting.CompleteDeactivates | backend/scripting/lua.go:550-559 | completing a known mission removes exactly its name from the active set |
| Scripting.LuaEngine.constructor | backend/scripting/lua.go:40-53 | no triggers and no missions |
| Scripting.LuaEngine.CheckTrigger | backend/scripting/lua.go:291-301 | true exactly for a registered, active trigger; false for an unknown id |
| Scripting.LuaEngine.CreateTrigger | backend/scripting/lua.go:267-283 | the trigger is stored (replacing any of the same id) as active, so checking it then yields true |
| Scripting.LuaEngine.RemoveTrigger | backend/scripting/lua.go:285-289 | the id is deleted, unknown ids change nothing, and checking it then yields false |
| Scripting.LuaEngine.StartMission | backend/scripting/lua.go:526-548 | a fresh active mission with no objectives is stored under the name, and the active set gains the name |
| Scripting.LuaEngine.CompleteMission | backend/scripting/lua.go:550-559 | a known mission becomes complete and inactive, an unknown name changes nothing, and the active set loses the name |
| Scripting.LuaEngine.SetObjective | backend/scripting/lua.go:561-570 | a known mission gets the objective appended; an unknown one changes nothing |
| Scripting.LuaEngine.CompleteObjective | backend/scripting/lua.go:572-583 | the Lua number truncated toward zero selects the objective to mark; unknown missions change nothing |
| Scripting.LuaEngine.GetActiveMission | backend/scripting/lua.go:620-627 | none exactly when no mission is active, otherwise one of the active missions |
| Values.ToFloat64 | backend/panels/manager.go:427-448 | floats read as themselves, integers as their value, anything else as 0 |
| Values.TruncToInt | backend/scripting/lua.go:574 | Go's float-to-int conversion truncates toward zero: the result is the integer part of the number, with its sign |
| Values.TruncExamples | backend/scripting/lua.go:574 | example: -0.5 truncates to 0, -2.7 to -2 and 2.7 to 2 |
| Values.MapSumRemove | backend/stations/stations.go:333-338 | a map's total is any one entry plus the total of the rest, whatever the iteration order |
| Values.MapSumNonNegative | backend/stations/stations.go:333-338 | a total of non-negative entries is non-negative |
| Values.MapSumRestrictStep | backend/stations/stations.go:333-338 | adding one more entry to the part summed so far adds its value |
| Text.DigitChar | backend/universe/universe.go:82 | a decimal digit is spelled by one character from '0' to '9' |
| Text.NatToString | backend/universe/universe.go:82 | a non-negative number is spelled by at least one decimal digit, exactly one below 10 |
| Text.IntToString | backend/universe/universe.go:82 | the spelling starts with '-' exactly for negative numbers |
| Text.DigitCharInjective | backend/universe/universe.go:82 | different digits are spelled differently |
| Text.NatToStringInjective | backend/universe/universe.go:82 | different non-negative numbers are spelled differently |
| Text.IntToStringInjective | backend/universe/universe.go:82 | different integers are spelled differently |
| Text.SpellingExamples | backend/universe/universe.go:82 | example: 0, 42 and -7 are spelled "0", "42" and "-7" |

## Left out

- Sockets, threads and sleeping in the test client are parameters instead. The receiver thread is a sequence of `recv` outcomes, each wait is a budget of 0.1 s polls, and whether each `socket.send` raised is an input. A partial `socket.send` is not modelled.
- PanelTester.Tester.TestInputDevice: requires a non-empty value list, because the source divides by its length and raises `ZeroDivisionError` on an empty one.
- PanelTester.Tester.TestOutputDevice: requires a non-empty command list, for the same division by zero.
- The scripted scenarios of the test client (`test_helm_panel`, `test_tactical_panel`, `test_communication_panel`, `test_all_panels`) and `main`'s argument parsing are left out. They only call the modelled exercises with fixed tables.
- Message timestamps (ISO-8601 text) and log output are left out.
- JSON encoding and decoding (`json`, ArduinoJson, `encoding/json`) are foreign libraries. They are function parameters: partial decoders yield `None` where decoding fails, and encoders are total. `json.Marshal` errors that the backend discards are not modelled.
- Firmware hardware I/O (WiFi, the TCP client, `digitalRead`/`analogRead`, FastLED, `tone`, `millis`) is left out. Readings, decoded messages and the clock are parameters. The potentiometer and slider smoothing, the encoder, rotary switch and buzzer drivers, `main.cpp` and the examples are left out too.
- PanelTester.Tester.WaitForMessage: assumes every queued reply is a JSON object. `json.loads` also accepts a line such as `5` or `[1]` and queues the value; the scan's `msg.get` would then raise `AttributeError` in the waiting caller. The model's `decode` yields only objects, so that crash is not represented. Likewise the connection test's `config_msg.get('data', {})` and `len(panel_config.get('devices', []))` raise when `data` is not an object or `devices` has no length; the model's device count is a `nat`, so those crashes are not represented either.
- Firmware.Panel.HandleConfiguration: stores the configured name and every device id in full. The source copies them with `strcpy` into `char name[64]` and `char id[32]` without a bound, so a longer name or id overruns the buffer; that undefined behaviour is not modelled.
- Firmware.SevenSegmentDevice.SetValue: truncates the value exactly. The source's `(int)value` is undefined in C for a float outside the range of `int`, and the model does not represent that range.
- Firmware message timestamps (`String(millis())`, milliseconds since boot as text) and the backend's RFC 3339 `time.Time` are both left out, so whether the backend accepts the firmware's timestamp field is not modelled.
- Firmware.Panel.LoadTable: stores each device's configured pin unchanged. The source assigns the JSON value to a `uint8_t` field, and how ArduinoJson converts an out-of-range number is the library's behaviour, which is not part of this model; the contract covers pins in 0..255 exactly.
- Config.TickDurationMs: requires a non-zero tick rate. With a rate of 0, Go's integer division panics; validation rejects that rate, so a loaded configuration never reaches it.
- Firmware.ToByte: C leaves a float-to-`uint8_t` conversion outside 0..255 undefined. The model reduces it modulo 256, and its contract speaks only of the defined range.
- `float64`/`float` are modelled as exact reals, so rounding, NaN and infinities are not captured. A square root is not computable, so `Normalize` receives the length as a parameter. The vector and quaternion algebra beyond the zero-length cases is left out.
- Universe.World.RetireAll: requires distinct ids of registered, destroyed objects. The first loop yields exactly such ids, since no object expires; the source loop would also accept other ids, and Retire on its own does.
- Objects.Ship.SystemEfficiency: the model returns 0 for a system whose maximum health is 0, where Go would divide by zero and yield NaN or an infinity. Its contract states only the zero cases for absent and offline systems.
- The physics engine's forces, drag, collisions, raycasts, explosions and torpedo guidance rely on floating-point geometry and are left out. So are the explosion impulse in `createExplosion` and the projectile creation after a successful `FireWeapon`.
- The default scenario, asteroid randomness (`rand`) and `generateClientID` are left out. `time.Now` and `time.Since` are parameters.
- The universe's position, follow, station-keeping and collision-avoidance autopilots, collisions and mine proximity depend on the vector algebra and are left out. The heading autopilot receives the current heading as a parameter, because it comes from quaternion rotation. A missing player ship is the caller's check.
- Mutexes and goroutine interleaving are left out: every registry is sequential. A session's reader loop and its writer are two methods the caller interleaves. The deadlock in `Universe.Update`, which holds the non-reentrant mutex while calling `RemoveObject` and `GetObject`, is not reproduced.
- `bufio.Scanner`'s 64 KiB line limit and its error ending, `conn.Close`, write deadlines, and closing a session when its writer stops are left out.
- TCP server's `Start`, `Stop`, `acceptConnections`, the 30-second heartbeat ticker, `SendOutputToPanel`, `Broadcast`, `GetConnectedPanels`, `GetPanelCount`, `SendConfigurationToPanel` and `DisconnectPanel` are left out. They are socket plumbing around the modelled session.
- The panel registry hands each input event to the station manager. In the model, `ProcessInput` returns the event and the TCP server appends it to its `dispatched` log. The station manager's `HandleInput` is modelled on its own. The registry's output setters (`SendOutput`, `SetLED`, `SetRGBStrip`, `SetDisplay`, `SetBuzzer`) and its accessors are left out.
- Station handler dispatch to the per-action cases is left out. So are the handler actions that go through the universe or decode the input context: helm motion and autopilot, tactical firing, targeting and shield raising, communications, crew assignment, alert levels, general quarters, cameras and lockdown. The update-filter `Meta` maps are left out.
- With Go versions before 1.22, `&station` in `initializeStations` makes all six registry entries alias one loop variable. The model gives each station its own entry, as Go 1.22 and later do.
- The Lua virtual machine, the Lua values a trigger carries, the evaluation of trigger conditions, `luaWait`, `luaRandom`, `luaLog`, `luaVector3`, the mission's state map and the `current_mission` property set on the player ship are left out.
- Weapon `LastFired` is `None` before the first shot, standing in for Go's zero time, which is always long enough ago.
- Config `Save`, file access and JSON decoding in `Load` are parameters. `GetServerAddress`, `GetTCPAddress`, `IsDebugMode` and `GetStateUpdateDuration` are plain formatting and are left out.
- `backend/server/websocket.go`, `backend/server/server.go`, `backend/main.go` and `backend/logger/logger.go` are outside this model.
