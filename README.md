# hime-display control plane, in Dafny

Hime Display is a desktop character window: a model (Live2D, glTF or a Source-engine MDL)
is shown in a transparent window and driven by commands. Applications send those commands
over a local WebSocket or HTTP gateway. The main process routes each one to the display
window as control messages, and the window's model managers act on them every frame. Around
this core sit MCP tool servers (Python and JavaScript), example clients, and bridges that
turn an AI chat into facial expressions, gaze and mouth movement.

This project models that control plane:

- **`CommandRouter`** (`command_handler.dfy`): the main-process command handler. It covers
  the action dispatch, field validation, the control messages each action emits, the
  result objects, and the `{success: false, error}` shape that every failure takes.
- **`ApiGateway`** (`api_server.dfy`): the API server. It covers configuration defaults,
  the enabled gate, the client registry with ready states, envelope validation with its
  error or ack reply, open-only broadcast, HTTP routing and `stop`.
- **`Sequencer`** (`animation_manager.dfy`): the MDL animation sequence player. It covers
  play, stop, pause, resume, speed and loop, per-tick advance with wrap or stop, seek
  clamping and the read-only queries.
- **`Monitors`** (`monitor.dfy`): the three change detectors, each of which reports a
  change once.
- **`SourceEngine`**, **`GltfBackend`** and **`InstantConfigs`** (`source_engine_manager.dfy`,
  `gltf_manager.dfy`, `instant_config.dfy`): the two 3D model managers' message handling and
  per-frame update, and the instant-configuration object whose `trackMouse` setter resets
  the focus helper.
- **`AutoAnimation`**, **`Adaptive`** and **`LmStudio`** (`auto_animation_bridge.dfy`,
  `adaptive_animation.dfy`, `lmstudio.dfy`): the keyword emotion scorer, the animation
  controller, the capability registry with capability-filtered commands, chat-history
  trimming and server-sent-event line handling.
- **`McpServerPy`** / **`McpPyConnection`**, **`McpServerJs`** / **`McpJsConnection`**,
  **`ExampleMcpServer`** / **`ExampleMcpConnection`**, **`PythonClient`** and **`NodeClient`**:
  the tool-call translators of the MCP servers and the example clients, and their
  connection gates.
- Shared modules: **`Values`** (JSON and JavaScript values, truthiness, property reads,
  number conversion, command envelopes), **`Text`** (ASCII lower-casing, substrings,
  counts, word splitting), **`Speech`** (frame counts and the triangle mouth wave) and
  **`McpCommon`** (a run of sends that stops at the first failure).

Objects whose fields the source updates in place are classes with `modifies` frames.
Outgoing messages and network sends are appended to an outbox sequence. Pure rules are
functions, with lemmas relating them.

Two kinds of input stand in for things the model does not compute:

- The outcome of each network operation is a parameter: a handshake result, or a per-send
  link event indexed by position.
- The clock delta of a frame is a parameter too.

Behaviours of the code that are easy to misread; the model follows the code:

- **Non-looping end in `AnimationManager.update`.** At the end of a non-looping sequence
  the time is set to the duration, but `stop()` then rewinds it to 0
  (`Sequencer.NonLoopingEndRewinds`).
- **Out-of-range index in `playSequence`.** An out-of-range numeric index still becomes
  `currentSequence` (`Sequencer.OutOfRangeIndexIsRemembered`).
- **End of a sequence in the Source-engine manager.** Time that passes the duration wraps
  to exactly 0 (`SourceEngine.AdvanceCases`).
- **API server configuration.** The `...config` spread comes last, so any key present in
  the given configuration wins, even `enabled: null`; the defaults fill only absent keys.
- **`setParameters` and `setParts` send entry by entry.** A nullish entry throws
  part-way through, after the earlier entries were already sent
  (`CommandRouter.BatchStopsAtNullishEntry`).
- **Display-window error text.** The error for a missing display window is
  `Display window is not open`.
- **HTTP body `null`.** A POST whose body is `null` parses, but `handleMessage` then
  throws, so the reply is 400.

## Model

`Sequencer.MulMono`, `Sequencer.MulStrict`, `Sequencer.MulNonNeg`, `Sequencer.Quotient` and
`Sequencer.Scaled` (with `Sequencer.JsRemBounds`, `Sequencer.NegatedQuotient` and `Sequencer.TickCases`) are
real-arithmetic proof helpers for the remainder and playback lemmas and have no row of their own.

| member | source | states |
|---|---|---|
| McpCommon.Get | mcp/server.py:286 | a present key gives its value, a missing one the default |
| McpCommon.Feature | mcp/server.py:379-395 | one `enabled` command with the argument's value exactly when the key is present, none otherwise |
| McpCommon.Direction | mcp/server.py:365-369 | `center` within 0.5 on both axes; `left`/`right` by the sign of `x` beyond 0.5; ` and up`/` and down` appended by the sign of `y` beyond 0.5 |
| McpCommon.PyNumber | mcp/server.py:326 | numbers are themselves, booleans count as numbers, nothing else is one |
| McpCommon.PyTimes | mcp/server.py:359-361 | `x * k` of a number is the scaled number; `None`, a dict or a missing value raises |
| McpCommon.SetValuesOfNumbers | mcp/server.py:355-363 | a parameter list built from numeric argument values is the numeric `setParameters` command |
| McpCommon.RunSends | mcp/server.py:219-427 | the awaits of a handler deliver at most the commands it awaits, in order, stopping at the first failure |
| McpCommon.RunAppend | mcp/server.py:323-343 | running two batches of awaits one after the other is one run: the second runs only when the first did not fail |
| McpCommon.RunSnoc | mcp/server.py:327-334 | one more await extends the run by that send, unless the run had already failed |
| McpCommon.RunStopped | mcp/server.py:418-427 | once an await has failed nothing after it is sent |
| McpCommon.Horizontal | mcp/server.py:365-367 | `center` exactly within 0.5 of zero, `left` exactly below -0.5, `right` otherwise |
| McpCommon.Preset | mcp/server.py:224-275 | a preset exactly for the eight named emotions, each of three to five distinct parameters, all but `surprised` leading with the mouth form |
| McpCommon.LookEntries | mcp/server.py:355-363 | five distinct gaze parameters carrying the five given values in order |
| McpPyConnection.SendStep | mcp/server.py:47-62 | a disconnected connection whose reconnect fails raises "Not connected to Hime Display" and sends nothing; a closed socket raises "Connection lost" and clears the flag; only a reply that parses succeeds, and then the command went out on a connected socket |
| McpPyConnection.HimeDisplayConnection.constructor | mcp/server.py:29-32 | no socket, not connected, nothing sent |
| McpPyConnection.HimeDisplayConnection.Connect | mcp/server.py:34-45 | true exactly when the welcome arrives; the flag is set whenever the socket opened |
| McpPyConnection.HimeDisplayConnection.SendCommand | mcp/server.py:47-62 | its result, flag and sent commands are those of `SendStep` |
| McpPyConnection.HimeDisplayConnection.Close | mcp/server.py:64-68 | the connection is marked disconnected |
| McpPyConnection.HimeDisplayConnection.SendAll | mcp/server.py:219-427 | the commands sent, the flag and the failure are those of `RunSends` over the connection's `SendStep` |
| McpServerPy.EmotionPlan | mcp/server.py:220-282 | a missing `emotion` raises `KeyError` before any send; a string emotion sends one `setParameters` with its preset, the neutral preset for an unknown name, and reports the name |
| McpServerPy.AnimationPlan | mcp/server.py:284-302 | exactly one command: `playRandomMotion` of the group unless `random` is falsy, then `playMotion` with index 0; a missing `group` raises |
| McpServerPy.ParameterPlan | mcp/server.py:304-316 | one `setParameter` with the id and value as given; a missing id or value raises `KeyError` in that order |
| McpServerPy.SpeakPlan | mcp/server.py:318-348 | always starts with breathing off; with numeric arguments it is breathing off, `int(duration*10)` triangle-wave frames, mouth closed, breathing on |
| McpServerPy.LookPlan | mcp/server.py:350-374 | a missing `x` or `y` raises before any send |
| McpServerPy.LookNumbers | mcp/server.py:355-374 | with numbers, one command with eyes `(x, y)`, head `(15x, 10y)`, body `5x`, and the reply reports the direction label |
| McpServerPy.FeaturesPlan | mcp/server.py:376-400 | one command per key present, in the order breath, eye blink, mouse tracking; no command exactly when no key is present |
| McpServerPy.WindowPlan | mcp/server.py:402-410 | `show` sends `showDisplay`, any other action `hideDisplay`; a missing action raises |
| McpServerPy.ToolPlan | mcp/server.py:412-416 | an unknown tool sends nothing and answers `Unknown tool` |
| McpServerPy.ErrorReply | mcp/server.py:418-427 | a `ConnectionError` gets the connection-error text; every other exception gets `Error executing <tool>` |
| McpServerPy.UnknownToolIsQuiet | mcp/server.py:412-416 | whatever the link, an unknown tool sends nothing, keeps the flag and answers `Unknown tool: <name>` |
| McpServerPy.FailedReconnectSendsNothing | mcp/server.py:49-51 | a disconnected server whose reconnect fails sends nothing and answers with the connection error |
| McpServerPy.Execute | mcp/server.py:219-427 | the commands sent and the flag follow `RunSends`; the reply is the failed send's error or else the handler's ending |
| McpServerPy.CallTool | mcp/server.py:215-427 | `call_tool` sends exactly what its tool's plan awaits, up to the first failure, and replies accordingly |
| McpJsConnection.SendStep | mcp/server.js:63-93 | a disconnected connection whose reconnect resolves false throws "Not connected to Hime Display", one whose reconnect times out throws "Connection timeout", both before writing; success needs a parsed reply on a connected socket |
| McpJsConnection.HimeDisplayConnection.constructor | mcp/server.js:24-28 | no socket, not connected, nothing sent |
| McpJsConnection.HimeDisplayConnection.Connect | mcp/server.js:30-61 | true exactly when the socket opens, which sets the flag; a hung handshake rejects with "Connection timeout" |
| McpJsConnection.HimeDisplayConnection.SendCommand | mcp/server.js:63-93 | its thrown message, flag and written commands are those of `SendStep` |
| McpJsConnection.HimeDisplayConnection.Close | mcp/server.js:95-100 | the connection is marked disconnected |
| McpJsConnection.HimeDisplayConnection.SendAll | mcp/server.js:164-281 | the commands written, the flag and the first error are those of `RunSends` over `SendStep` |
| McpServerJs.Arg | mcp/server.js:166 | a missing key reads as `undefined` |
| McpServerJs.ArgOr | mcp/server.js:174-197 | a destructuring default replaces a missing key, and a present defined value is kept |
| McpServerJs.Wire | mcp/server.js:232-234 | a `NaN` product goes on the wire as `null`, and only a `NaN` does |
| McpServerJs.Times | mcp/server.js:232-234 | `v * k` is a number exactly when `v` converts to one, the plain product for a number |
| McpServerJs.EmotionPlan | mcp/server.js:165-171 | exactly one `setParameters`: the preset of a known emotion name, otherwise (missing too) the neutral preset |
| McpServerJs.AnimationPlan | mcp/server.js:173-183 | exactly one command: `playRandomMotion` unless `random` is falsy, `playMotion` with index 0 otherwise; without `random` it is the random one |
| McpServerJs.ParameterPlan | mcp/server.js:185-194 | one `setParameter` with the id and value as given, missing ones as `undefined` |
| McpServerJs.Frames | mcp/server.js:203-204 | `Math.floor(duration * 10)` frames for a number, none for `NaN` |
| McpServerJs.MouthFrames | mcp/server.js:204-211 | frame `i` sets the mouth to `intensity * triangle(i)` (`null` when `NaN`) |
| McpServerJs.MouthFramesOfNumber | mcp/server.js:204-211 | with a numeric intensity the frames are the triangle-wave frames of the Python servers |
| McpServerJs.SpeakPlan | mcp/server.js:196-223 | breathing off, the frames, mouth closed, breathing on, and the text reports the duration |
| McpServerJs.SpeakNumbers | mcp/server.js:196-223 | with numbers the speech is the Python servers' speech, `floor(10d) + 3` commands |
| McpServerJs.LookPlan | mcp/server.js:225-247 | one `setParameters` with eyes as given, head `15x, 10y`, body `5x`, and the direction label of the coordinates |
| McpServerJs.LookNumbers | mcp/server.js:225-247 | with numbers, the same command and direction label as the Python server |
| McpServerJs.LookNaN | mcp/server.js:238-244 | coordinates that are not numbers are labelled `center` and their scaled values are sent as `null` |
| McpServerJs.FeaturesPlan | mcp/server.js:249-268 | one command per key present, breath, eye blink, mouse tracking in that order; none exactly when no key is present |
| McpServerJs.WindowPlan | mcp/server.js:270-280 | a strict `show` sends `showDisplay`; anything else, missing included, sends `hideDisplay` |
| McpServerJs.ToolPlan | mcp/server.js:458-468 | an unknown tool sends nothing and answers `Unknown tool`; every known tool but `control_auto_features` awaits a command |
| McpServerJs.ErrorReply | mcp/server.js:479-488 | a thrown error is reported as `Error executing <tool>` and flagged `isError` |
| McpServerJs.CallReply | mcp/server.js:470-488 | the reply is flagged `isError` exactly when a send threw; otherwise it is the handler's text |
| McpServerJs.UnknownToolIsQuiet | mcp/server.js:458-468 | an unknown tool sends nothing, keeps the flag and is not flagged as an error |
| McpServerJs.FailedReconnectSendsNothing | mcp/server.js:64-69 | a failed reconnect writes nothing, leaves the flag down, and the reply carries its message |
| McpServerJs.Execute | mcp/server.js:470-488 | the commands written and the flag follow `RunSends`; the reply is `CallReply` of that run |
| McpServerJs.CallTool | mcp/server.js:454-490 | the call handler sends exactly what its tool's plan awaits, up to the first thrown error, and replies accordingly |
| ExampleMcpConnection.Reconnected | examples/mcp_server/mcp_server.py:33-48 | a down flag reconnects: the flag and a socket come up unless the connection is refused; an up flag is kept as it is |
| ExampleMcpConnection.SendStep | examples/mcp_server/mcp_server.py:45-53 | the state is the reconnected one; without a socket the send raises the `AttributeError` and nothing goes out; success needs a socket and a reply that parses |
| ExampleMcpConnection.StaysConnected | examples/mcp_server/mcp_server.py:45-53 | once up, the flag and the socket stay as they are through any sends, whatever fails |
| ExampleMcpConnection.HimeDisplayConnection.constructor | examples/mcp_server/mcp_server.py:29-31 | no socket, not connected, nothing sent |
| ExampleMcpConnection.HimeDisplayConnection.Connect | examples/mcp_server/mcp_server.py:33-43 | true exactly when the welcome arrives; the socket and the flag come up whenever the socket opened |
| ExampleMcpConnection.HimeDisplayConnection.SendCommand | examples/mcp_server/mcp_server.py:45-53 | its exception, state and written commands are those of `SendStep` |
| ExampleMcpConnection.HimeDisplayConnection.SendAll | examples/mcp_server/mcp_server.py:206-374 | the commands written, the state and the first exception are those of `RunSends` over `SendStep` |
| ExampleMcpConnection.HimeDisplayConnection.Close | examples/mcp_server/mcp_server.py:55-59 | with a socket the flag goes down, without one it is kept |
| ExampleMcpServer.EmotionHandler | examples/mcp_server/mcp_server.py:207-250 | a missing `emotion` raises `KeyError`; a known name sends its preset and reports it; a name outside the six raises `KeyError` carrying the `repr` of the name (`Text.PyRepr`) before any send |
| ExampleMcpServer.AnimationHandler | examples/mcp_server/mcp_server.py:252-269 | exactly one command: `playRandomMotion` unless `random` is falsy, then `playMotion` with index 0; a missing `group` raises |
| ExampleMcpServer.ParameterHandler | examples/mcp_server/mcp_server.py:271-283 | one `setParameter` with the id and value as given, reported back; a missing id or value raises in that order |
| ExampleMcpServer.SpeakHandler | examples/mcp_server/mcp_server.py:285-314 | always starts with breathing off; with numbers it is breathing off, `int(duration*10)` triangle frames, mouth 0.0, breathing on |
| ExampleMcpServer.LookHandler | examples/mcp_server/mcp_server.py:316-332 | a missing `x` or `y` raises; at most one command |
| ExampleMcpServer.LookNumbers | examples/mcp_server/mcp_server.py:320-332 | with numbers, exactly four parameters: `x`, `y`, `15x`, `10y`, and the reply reports the coordinates |
| ExampleMcpServer.FeaturesHandler | examples/mcp_server/mcp_server.py:334-358 | one command per key present, breath then eye blink then mouse tracking; none exactly when no key is present |
| ExampleMcpServer.WindowHandler | examples/mcp_server/mcp_server.py:360-368 | `show` sends `showDisplay`, any other action `hideDisplay`; a missing action raises |
| ExampleMcpServer.ToolHandler | examples/mcp_server/mcp_server.py:370-374 | an unknown tool sends nothing and answers `Unknown tool: <name>` |
| ExampleMcpServer.Failure | examples/mcp_server/mcp_server.py:376-380 | every exception is answered `Error executing <tool>: <message>`, a `KeyError` with the quoted key |
| ExampleMcpServer.UnknownEmotionRaises | examples/mcp_server/mcp_server.py:243-245 | an emotion outside the six presets sends nothing on any connection, and the answer is `Error executing set_emotion: ` followed by Python's `repr` of the emotion (`Text.PyRepr`) |
| ExampleMcpServer.UnknownToolIsQuiet | examples/mcp_server/mcp_server.py:370-374 | an unknown tool sends nothing and keeps the connection as it was |
| ExampleMcpServer.RefusedWithoutSocket | examples/mcp_server/mcp_server.py:47-51 | a server that never connected and is refused again fails its first send with the `AttributeError` and sends nothing |
| ExampleMcpServer.Execute | examples/mcp_server/mcp_server.py:206-380 | the commands written and the state follow `RunSends`; the answer is the failed send's exception or else the handler's ending |
| ExampleMcpServer.CallTool | examples/mcp_server/mcp_server.py:202-380 | `call_tool` sends exactly what its tool's handler awaits, up to the first exception, and answers accordingly |
| ExampleMcpServer.EmotionPreset | examples/mcp_server/mcp_server.py:211-245 | a preset exactly for the six named emotions, each of two or three distinct parameters |
| ExampleMcpServer.Answered | examples/mcp_server/mcp_server.py:376-380 | a failed send is reported before the handler's own ending; a finished handler after clean sends answers its text; an interpreter failure exactly when one was raised |
| PythonClient.Sending | examples/python_client.py:30-40 | without the flag the send raises `ConnectionError` and nothing else happens; an acknowledgment comes back exactly when connected and the reply parses |
| PythonClient.ClientStep | examples/python_client.py:30-40 | a send never changes the flag; a send that did not fail wrote its command; without the flag nothing is written |
| PythonClient.DisconnectedSendsNothing | examples/python_client.py:32-33 | on a client that is not connected any sequence of sends writes nothing and ends with the `ConnectionError` |
| PythonClient.MotionCommand | examples/python_client.py:64-71 | `playMotion` with the group, the index exactly when one is given, the file exactly when it is non-empty, and no other key |
| PythonClient.RandomMotionCommand | examples/python_client.py:73-76 | `playRandomMotion` with the group when it is given and non-empty, otherwise with empty data |
| PythonClient.EmotionNamesArePresets | examples/python_client.py:105-145 | the six listed names are exactly the keys that have a preset |
| PythonClient.EmotionParameters | examples/python_client.py:147-150 | the preset of the lower-cased name, or the `ValueError` naming the emotion and listing the six names |
| PythonClient.EmotionIgnoresCase | examples/python_client.py:147-150 | a known emotion is found whatever the case of its ASCII letters |
| PythonClient.LookCommand | examples/python_client.py:152-162 | exactly four parameters: eyes at `(x, y)`, head at `(15x, 10y)` |
| PythonClient.SpeechCommands | examples/python_client.py:170-177 | `int(duration*10)` triangle-wave frames then the mouth closed, every one a `setParameter` |
| PythonClient.RunKeepsFlag | examples/python_client.py:30-40 | no sequence of sends changes the connection flag |
| PythonClient.ClientRunStep | examples/python_client.py:171-177 | one more command of a run that has gone well either ends the run with its exception or extends it |
| PythonClient.HimeDisplayClient.constructor | examples/python_client.py:13-16 | no socket, not connected, nothing sent |
| PythonClient.HimeDisplayClient.Connect | examples/python_client.py:18-28 | true exactly when the welcome arrives; the flag is set as soon as the socket opens, even when the welcome is lost |
| PythonClient.HimeDisplayClient.Disconnect | examples/python_client.py:42-47 | with a socket the flag goes down, without one it is kept |
| PythonClient.HimeDisplayClient.SendCommand | examples/python_client.py:30-40 | the outcome is `Sending`'s and the command is written exactly when it was delivered |
| PythonClient.HimeDisplayClient.SetParameter | examples/python_client.py:51-56 | one `setParameter` command with the id and value |
| PythonClient.HimeDisplayClient.SetParameters | examples/python_client.py:58-62 | one `setParameters` command with the list as given |
| PythonClient.HimeDisplayClient.PlayMotion | examples/python_client.py:64-71 | sends `MotionCommand` of its arguments |
| PythonClient.HimeDisplayClient.PlayRandomMotion | examples/python_client.py:73-76 | sends `RandomMotionCommand` of its argument |
| PythonClient.HimeDisplayClient.SetFeature | examples/python_client.py:78-88 | one of the three feature toggles with `enabled` |
| PythonClient.HimeDisplayClient.SetDisplay | examples/python_client.py:90-96 | `showDisplay` or `hideDisplay` with empty data |
| PythonClient.HimeDisplayClient.SetEmotion | examples/python_client.py:100-150 | an unknown name fails with the `ValueError` and sends nothing; a known one sends its preset |
| PythonClient.HimeDisplayClient.LookAt | examples/python_client.py:152-162 | sends `LookCommand(x, y)` |
| PythonClient.HimeDisplayClient.SpeakFrame | examples/python_client.py:171-174 | one frame of the loop: it ends the whole frame run with its exception or extends the delivered prefix by that frame |
| PythonClient.HimeDisplayClient.SpeakFrames | examples/python_client.py:170-174 | the frames written and the first exception are those of `RunSends` over the triangle frames |
| PythonClient.HimeDisplayClient.SpeakAnimation | examples/python_client.py:164-177 | the commands written and the first exception are those of `RunSends` over `SpeechCommands` |
| PythonClient.EmotionPreset | examples/python_client.py:105-145 | a preset exactly for the six named emotions, each of three to six distinct parameters |
| NodeClient.Ids | examples/node_client.js:15 | the ids of the handler map in insertion order |
| NodeClient.Find | examples/node_client.js:15 | a handler is found exactly when its id is registered, and it is the one stored under that id |
| NodeClient.Set | examples/node_client.js:59 | `Map.set`: a known id keeps its place and the id order is unchanged; a new id is appended at the end |
| NodeClient.Delete | examples/node_client.js:60 | `Map.delete`: the id is gone, no id is added, an unknown id leaves the map as it was |
| NodeClient.SetFinds | examples/node_client.js:59 | after `set`, the id finds the new handler, every other id finds what it found before, and ids stay distinct |
| NodeClient.SetFindsInPlace | examples/node_client.js:59 | replacing the handler of a known id in place finds the new handler under it and the old one under every other id |
| NodeClient.FindLast | examples/node_client.js:59 | an appended entry is found under its own id and hides nothing else |
| NodeClient.DeleteFinds | examples/node_client.js:60 | after `delete`, the id finds nothing and every other id finds what it found before |
| NodeClient.DeleteDistinct | examples/node_client.js:60 | deleting keeps the ids distinct |
| NodeClient.UnsubscribeUndoes | examples/node_client.js:57-61 | subscribing under a fresh id and then calling the returned function gives back the original map |
| NodeClient.Handlers | examples/node_client.js:39 | `forEach` reaches every registered handler once, in insertion order |
| NodeClient.NodeStep | examples/node_client.js:66-73 | a send succeeds exactly when connected and no `close` event came first; success writes the command, failure throws `Not connected to Hime Display` and leaves the flag down |
| NodeClient.NodeRunStep | examples/node_client.js:210-216 | one more command of a run that has gone well either extends it or ends the whole run with the throw |
| NodeClient.MotionCommand | examples/node_client.js:121-126 | `playMotion` with the group, the index exactly when it is not null or undefined, the file exactly when it is truthy, and no other key |
| NodeClient.RandomMotionCommand | examples/node_client.js:128-131 | `playRandomMotion` with the group when it is truthy, otherwise with empty data |
| NodeClient.LookCommand | examples/node_client.js:195-202 | exactly four parameters: eyes at `(x, y)`, head at `(15x, 10y)` |
| NodeClient.SpeechFrames | examples/node_client.js:208 | `Math.floor(duration / 100)`: the frame count brackets `duration/100` and is 0 below 100 ms |
| NodeClient.SpeechCommands | examples/node_client.js:207-217 | the triangle-wave frames of `duration` milliseconds then the mouth closed, every one a `setParameter` |
| NodeClient.HimeDisplayClient.constructor | examples/node_client.js:10-16 | not connected, nothing sent, no handlers |
| NodeClient.HimeDisplayClient.Opened | examples/node_client.js:25-28 | the `open` event sets the flag |
| NodeClient.HimeDisplayClient.Closed | examples/node_client.js:47-109 | the `close` event, which `disconnect` brings about, clears the flag |
| NodeClient.HimeDisplayClient.Message | examples/node_client.js:30-40 | a message reaches every registered handler in order, and settles `connect` exactly when its `type` is `connection` |
| NodeClient.HimeDisplayClient.OnMessage | examples/node_client.js:57-61 | the handler is stored under its id, which identifies the unsubscribe function |
| NodeClient.HimeDisplayClient.Unsubscribe | examples/node_client.js:60 | the id is deleted; the result is true exactly when it was registered |
| NodeClient.HimeDisplayClient.SendCommand | examples/node_client.js:66-73 | throws `Not connected to Hime Display` exactly when not connected; otherwise the command is written |
| NodeClient.HimeDisplayClient.SetParameter | examples/node_client.js:113-115 | one `setParameter` command, or the throw |
| NodeClient.HimeDisplayClient.SetParameters | examples/node_client.js:117-119 | one `setParameters` command, or the throw |
| NodeClient.HimeDisplayClient.PlayMotion | examples/node_client.js:121-126 | sends `MotionCommand` of its arguments, or the throw |
| NodeClient.HimeDisplayClient.PlayRandomMotion | examples/node_client.js:128-131 | sends `RandomMotionCommand` of its argument, or the throw |
| NodeClient.HimeDisplayClient.SetFeature | examples/node_client.js:133-143 | one of the three feature toggles with `enabled`, or the throw |
| NodeClient.HimeDisplayClient.SetDisplay | examples/node_client.js:145-151 | `showDisplay` or `hideDisplay` with empty data, or the throw |
| NodeClient.HimeDisplayClient.SetEmotion | examples/node_client.js:156-190 | a name outside the five presets throws `Unknown emotion: <name>` and sends nothing; a known one sends its preset |
| NodeClient.HimeDisplayClient.LookAt | examples/node_client.js:195-202 | sends `LookCommand(x, y)`, or the throw |
| NodeClient.HimeDisplayClient.Frame | examples/node_client.js:210-213 | one frame after a possible `close` event: flag, throw and written command are those of `NodeStep` |
| NodeClient.HimeDisplayClient.SpeakStep | examples/node_client.js:210-216 | one command of the speech: it ends the speech run with the throw or extends the delivered prefix |
| NodeClient.HimeDisplayClient.SpeakAnimation | examples/node_client.js:207-217 | the commands written, the flag and the throw are those of `RunSends` over `SpeechCommands` |
| NodeClient.EmotionPreset | examples/node_client.js:157-183 | a preset exactly for the five named emotions, each of three distinct parameters |
| AutoAnimation.KeywordHits | mcp/auto_animation_bridge.py:45-47 | at most one point per keyword, and none exactly when no keyword occurs in the text |
| AutoAnimation.HitsDependOnlyOnOccurrence | mcp/auto_animation_bridge.py:45-47 | the points depend only on which keywords occur, not on how often |
| AutoAnimation.PunctuationPositions | mcp/auto_animation_bridge.py:26-55 | the positions the punctuation bonuses go to are `surprised`, `confused` and `excited` |
| AutoAnimation.Scores | mcp/auto_animation_bridge.py:42-55 | one score per emotion of the table |
| AutoAnimation.FirstMax | mcp/auto_animation_bridge.py:58-60 | Python's `max` over the items: an entry no other exceeds, with every earlier entry strictly lower |
| AutoAnimation.NamesDistinct | mcp/auto_animation_bridge.py:26-34 | the seven emotion names are distinct and none is `neutral` |
| AutoAnimation.DetectedEmotionWins | mcp/auto_animation_bridge.py:37-62 | `neutral` exactly when every score is zero; otherwise the emotion returned has a positive score no other exceeds, and every emotion before it in the table scores lower |
| AutoAnimation.ExclamationsExcite | mcp/auto_animation_bridge.py:50-51 | every `!` adds one to `excited` on top of its keyword points |
| AutoAnimation.CountHits | mcp/auto_animation_bridge.py:45-47 | the loop's count is `KeywordHits` |
| AutoAnimation.SameScores | mcp/auto_animation_bridge.py:42-55 | a sequence holding every emotion's points and bonus is the scores |
| AutoAnimation.KeywordScores | mcp/auto_animation_bridge.py:42-47 | every emotion's keyword points, in table order |
| AutoAnimation.Highest | mcp/auto_animation_bridge.py:58-60 | the loop finds `FirstMax` of the scores |
| AutoAnimation.AddBonuses | mcp/auto_animation_bridge.py:50-55 | each score gains exactly its punctuation bonus: the count of `!` for excited, one for surprised when both `?` and `!` occur, one for confused with two or more `?` |
| AutoAnimation.Detect | mcp/auto_animation_bridge.py:37-62 | `detect_emotion` returns `DetectEmotion` of the text |
| AutoAnimation.ShouldBeExcited | mcp/auto_animation_bridge.py:64-67 | true exactly when the text holds three or more `!` |
| AutoAnimation.EmotionParams | mcp/auto_animation_bridge.py:110-154 | a known emotion's own preset, any other name the neutral preset |
| AutoAnimation.KeywordEmotionHasPreset | mcp/auto_animation_bridge.py:26-34 | every emotion of the keyword table has a preset of its own |
| AutoAnimation.DetectedEmotionHasPreset | mcp/auto_animation_bridge.py:259-262 | whatever the scorer returns has a preset of its own, so the neutral fallback is never taken for it |
| AutoAnimation.Pattern | mcp/auto_animation_bridge.py:167-173 | each of the three patterns has eight values and starts closed |
| AutoAnimation.MouthFrames | mcp/auto_animation_bridge.py:166-181 | `int(duration*10)` frames, frame `i` setting the mouth to `intensity * pattern[i % 8]` |
| AutoAnimation.ReactionGroup | mcp/auto_animation_bridge.py:195-205 | one of three groups; any emotion outside the map gets `idle` |
| AutoAnimation.AiResponseCommands | mcp/auto_animation_bridge.py:256-274 | one preset, a reaction when `Reacts`, and a full speech when the duration exceeds 0.3 s |
| AutoAnimation.AiResponseStart | mcp/auto_animation_bridge.py:259-266 | the response starts with the detected emotion's preset; a reaction follows exactly for a strong emotion with three or more `!` |
| AutoAnimation.AiResponseSpeech | mcp/auto_animation_bridge.py:268-274 | fewer than three words bring no speech; three or more bring the speech of `min(0.15*words, 8)` seconds at intensity 0.7 after the preset and the reaction |
| AutoAnimation.AnimationController.constructor | mcp/auto_animation_bridge.py:73-79 | nothing sent, not speaking, last animation at time 0 |
| AutoAnimation.AnimationController.Send | mcp/auto_animation_bridge.py:93-106 | the command is appended to what was sent |
| AutoAnimation.AnimationController.SetEmotion | mcp/auto_animation_bridge.py:108-156 | sends `EmotionParams(emotion)` |
| AutoAnimation.AnimationController.SpeakAnimation | mcp/auto_animation_bridge.py:158-193 | sends breathing off, the mouth frames of the chosen pattern, the mouth closed, breathing on; ends not speaking |
| AutoAnimation.AnimationController.PlayReactionAnimation | mcp/auto_animation_bridge.py:195-208 | sends `playRandomMotion` with the reaction group and stamps the time |
| AutoAnimation.AnimationController.LookAtDirection | mcp/auto_animation_bridge.py:210-219 | sends eyes at `(x, y)` and head at `(15x, 10y)` |
| AutoAnimation.AnimationController.React | mcp/auto_animation_bridge.py:259-266 | returns the detected emotion and sends its preset, then the reaction when `Reacts` |
| AutoAnimation.AnimationController.SpeakResponse | mcp/auto_animation_bridge.py:268-274 | speech at intensity 0.7 exactly when `min(0.15*words, 8) > 0.3` |
| AutoAnimation.AnimationController.ProcessAiResponse | mcp/auto_animation_bridge.py:256-274 | sends exactly `AiResponseCommands(text, pattern)` |
| AutoAnimation.AnimationController.ProcessUserMessage | mcp/auto_animation_bridge.py:276-282 | a question mark tilts the head to `(0.1, 0.1)`; otherwise nothing is sent |
| AutoAnimation.Bonus | mcp/auto_animation_bridge.py:50-55 | `excited` gains one per `!`; `surprised` one exactly for both `?` and `!`; `confused` one exactly for two `?` or more; no other emotion gains |
| AutoAnimation.DetectEmotion | mcp/auto_animation_bridge.py:37-62 | one of the seven emotions or `neutral`, and `neutral` exactly when every score is zero |
| AutoAnimation.Preset | mcp/auto_animation_bridge.py:110-154 | a preset exactly for the eight named emotions, each of two to four distinct parameters with values between -5 and 10 |
| AutoAnimation.LookParams | mcp/auto_animation_bridge.py:210-219 | four distinct parameters: the eyes at `(x, y)` and the head at 15 and 10 times them |
| AutoAnimation.Reacts | mcp/auto_animation_bridge.py:265 | a reaction exactly for a strong emotion with three or more `!`, which then give `excited` at least three points |
| Adaptive.ModelCapabilities.constructor | mcp/adaptive_animation.py:22-27 | empty registries, no motions, not probed, no warnings shown |
| Adaptive.ModelCapabilities.MarkParamSupported | mcp/adaptive_animation.py:29-31 | the parameter joins the supported set, nothing else changes |
| Adaptive.ModelCapabilities.MarkGroupSupported | mcp/adaptive_animation.py:33-36 | the group joins the supported set and the model has motions |
| Adaptive.ModelCapabilities.ShouldWarn | mcp/adaptive_animation.py:46-51 | true exactly the first time a key is asked, and the key is then remembered |
| Adaptive.WarnsOnce | mcp/adaptive_animation.py:46-51 | asking twice for the same key, the second answer is always no |
| Adaptive.Flatten | mcp/adaptive_animation.py:58-136 | every parameter of every category is among those the probe tries |
| Adaptive.ParamTests | mcp/adaptive_animation.py:105-139 | one `setParameter` to 0 per parameter, in order |
| Adaptive.SetOfSnoc | mcp/adaptive_animation.py:135-139 | one more element of the list adds exactly that element to its set |
| Adaptive.GroupTests | mcp/adaptive_animation.py:117-148 | one `playRandomMotion` per common group, in order |
| Adaptive.Fallback | mcp/adaptive_animation.py:158-163 | the registry after the probe is never empty, and a non-empty one is kept |
| Adaptive.Available | mcp/adaptive_animation.py:204-207 | exactly the supported entries of the configuration, in configuration order |
| Adaptive.AvailableStep | mcp/adaptive_animation.py:205-207 | one more entry of the configuration is kept exactly when its parameter is supported |
| Adaptive.ConfigFor | mcp/adaptive_animation.py:175-202 | a known emotion's own configuration, any other the neutral one |
| Adaptive.LookAvailable | mcp/adaptive_animation.py:277-287 | the four gaze tests in order keep exactly the supported gaze parameters |
| Adaptive.SetIfAny | mcp/adaptive_animation.py:209-213 | one `setParameters` when the list is non-empty, nothing otherwise |
| Adaptive.PreferredGroups | mcp/adaptive_animation.py:256-262 | every emotion has at least one group to try |
| Adaptive.FirstSupported | mcp/adaptive_animation.py:264-269 | the first supported group of the list, if any, with no supported group before it |
| Adaptive.ChosenGroup | mcp/adaptive_animation.py:250-271 | the played group is supported and preferred for the emotion; without motions nothing is played |
| Adaptive.PlayCommand | mcp/adaptive_animation.py:264-269 | at most one command |
| Adaptive.AdaptiveController.constructor | mcp/adaptive_animation.py:68-75 | a fresh, unprobed registry; nothing sent; not speaking |
| Adaptive.AdaptiveController.Send | mcp/adaptive_animation.py:89-103 | the command is appended to what was sent |
| Adaptive.AdaptiveController.TestParameter | mcp/adaptive_animation.py:105-115 | sends the test and records the parameter exactly when it was accepted |
| Adaptive.AdaptiveController.TestAnimationGroup | mcp/adaptive_animation.py:117-124 | sends the test and records the group, and motions, exactly when it was accepted |
| Adaptive.AdaptiveController.ProbeParams | mcp/adaptive_animation.py:135-139 | every parameter tested in order; the accepted ones join the registry |
| Adaptive.AdaptiveController.ProbeGroups | mcp/adaptive_animation.py:145-148 | every group tested in order; the accepted ones join the registry, and motions exist exactly when one was accepted |
| Adaptive.AdaptiveController.AssumeBasicSupport | mcp/adaptive_animation.py:159-163 | every basic parameter is marked supported |
| Adaptive.AdaptiveController.Probe | mcp/adaptive_animation.py:126-166 | a second probe does nothing; a first one sends all tests, records the accepted ones, falls back to all basic parameters when none was accepted, and marks the model tested |
| Adaptive.AdaptiveController.SetEmotionAdaptive | mcp/adaptive_animation.py:168-213 | sends the supported part of the emotion's configuration, or nothing when none is supported |
| Adaptive.AdaptiveController.LookAtAdaptive | mcp/adaptive_animation.py:273-293 | sends the supported gaze parameters, or nothing when none is supported |
| Adaptive.AdaptiveController.PlayAnimationAdaptive | mcp/adaptive_animation.py:250-271 | plays the chosen group and stamps the time, or sends nothing and keeps the time |
| Adaptive.AdaptiveController.SpeakAnimationAdaptive | mcp/adaptive_animation.py:215-248 | without a mouth parameter nothing; otherwise breathing off, triangle frames, mouth closed, breathing on; ends not speaking |
| Adaptive.SimpleEmotion | mcp/adaptive_animation.py:376-383 | always one of `happy`, `neutral`, `sad` |
| Adaptive.ExclaimedIsHappy | mcp/adaptive_animation.py:378-390 | any `!` makes the response happy, so an animated response is a happy one |
| Adaptive.QuestionIsNeverSad | mcp/adaptive_animation.py:380-383 | a question mark rules out `sad` |
| Adaptive.ResponseShape | mcp/adaptive_animation.py:374-396 | an animated response plays motion before greeting; a model without a mouth gets no speech; fewer than three words give at most two commands |
| Adaptive.SimpleBridge.constructor | mcp/adaptive_animation.py:337-339 | a fresh controller, nothing sent, not running |
| Adaptive.SimpleBridge.Initialize | mcp/adaptive_animation.py:341-365 | without a connection nothing happens; with one it probes, turns breathing and blinking on and runs |
| Adaptive.SimpleBridge.OnAiResponseStart | mcp/adaptive_animation.py:367-372 | a gaze at the drawn point, cut down to the supported parameters |
| Adaptive.SimpleBridge.ReactTo | mcp/adaptive_animation.py:376-390 | the emotion's supported pose, then, for two or more `!`, the chosen animation |
| Adaptive.SimpleBridge.OnAiResponseComplete | mcp/adaptive_animation.py:374-396 | sends exactly `ResponseCommands` of the response and the registry |
| Adaptive.SimpleBridge.OnAiResponse | mcp/adaptive_animation.py:398-400 | the same commands as `on_ai_response_complete` |
| Adaptive.ProbeCommands | mcp/adaptive_animation.py:126-150 | one `setParameter` to 0 per basic parameter in category order, then one `playRandomMotion` per common group in order |
| Adaptive.Subsequence | mcp/adaptive_animation.py:204-206 | a kept-in-order selection is no longer than its source and holds only its source's entries |
| Adaptive.EmotionConfig | mcp/adaptive_animation.py:175-200 | a configuration exactly for the four named emotions, each of three to six distinct parameters |
| Adaptive.LookConfig | mcp/adaptive_animation.py:273-290 | four distinct parameters: the eyes at `(x, y)` and the head at 15 and 10 times them |
| Adaptive.ConfigsAreProbed | mcp/adaptive_animation.py:175-200 | every parameter an emotion configuration or the gaze uses is one of the basic parameters the probe tries |
| Adaptive.AdaptiveSpeech | mcp/adaptive_animation.py:215-240 | nothing without a mouth parameter; otherwise breathing off, one frame per tenth of a second, the mouth closed, breathing on |
| Adaptive.ResponseCommands | mcp/adaptive_animation.py:374-394 | more than two commands exactly when speech is sent; only pose, motion, mouth and breathing actions; no motion is played with fewer than two `!` |
| LmStudio.OutgoingMessages | mcp/lmstudio_integration.py:45-77 | the history unchanged, then the user message last; no history means only the user message |
| LmStudio.Field | mcp/lmstudio_integration.py:63 | indexing answers exactly on an object holding the key |
| LmStudio.Head | mcp/lmstudio_integration.py:63 | `[0]` answers exactly on a non-empty list |
| LmStudio.Reply | mcp/lmstudio_integration.py:59-68 | an answer needs status 200, a decoded body and a non-empty `choices` list; everything else raises |
| LmStudio.ReplyOfCompletion | mcp/lmstudio_integration.py:61-63 | a well-formed completion answers with its message content |
| LmStudio.Strip | mcp/lmstudio_integration.py:94 | no longer than the line, and a non-empty result neither starts nor ends with whitespace, in the full `str.isspace()` sense (`Text.IsSpace`, ASCII and Unicode spaces) |
| LmStudio.ChunkOutcome | mcp/lmstudio_integration.py:100-105 | a decoded chunk yields only truthy content and never ends the stream |
| LmStudio.ProcessLine | mcp/lmstudio_integration.py:94-107 | a line not starting with `data: ` is ignored, `data: [DONE]` ends the stream, a yielded token is truthy |
| LmStudio.StreamTokens | mcp/lmstudio_integration.py:93-107 | every token yielded is truthy, and at most one per line |
| LmStudio.Streamed | mcp/lmstudio_integration.py:88-91 | a status other than 200 raises before any line is read; otherwise the tokens of the lines |
| LmStudio.DoneEndsStream | mcp/lmstudio_integration.py:97-98 | nothing after the first `[DONE]` line changes the stream |
| LmStudio.OtherLinesIgnored | mcp/lmstudio_integration.py:95 | a line that is not a `data: ` line can be removed without changing the stream |
| LmStudio.ContentLines | mcp/lmstudio_integration.py:99-107 | a content chunk yields exactly its non-empty text, and a payload that does not decode is skipped |
| LmStudio.StripKeepsLine | mcp/lmstudio_integration.py:94 | a line with no whitespace at either end is its own stripped form |
| LmStudio.ReadStream | mcp/lmstudio_integration.py:87-109 | the reading loop's tokens and failure are `Streamed` of the reply |
| LmStudio.TextPrefix | mcp/lmstudio_integration.py:179 | the longest run of string tokens from the start |
| LmStudio.Trim | mcp/lmstudio_integration.py:200-202 | a history of at most 20 is kept; a longer one becomes the system prompt and its last 18 entries |
| LmStudio.TrimBounds | mcp/lmstudio_integration.py:196-202 | a history that starts with the prompt stays within 20 entries, prompt first, with the new exchange last |
| LmStudio.AnimatedChatbot.constructor | mcp/lmstudio_integration.py:115-123 | the system prompt is set, the history is empty, nothing scheduled |
| LmStudio.AnimatedChatbot.Initialize | mcp/lmstudio_integration.py:125-161 | succeeds exactly when the bridge comes up and the test message is answered; only then the history is the system prompt alone |
| LmStudio.AnimatedChatbot.Accumulate | mcp/lmstudio_integration.py:175-185 | the text of the string tokens and whether all were strings; the response start is scheduled once the text has more than three words |
| LmStudio.AnimatedChatbot.Chat | mcp/lmstudio_integration.py:163-204 | a completed stream answers with its text, schedules response start and completion, and appends the exchange trimmed; a failed one answers `None` and keeps the history |
| LmStudio.ChatEvents | mcp/lmstudio_integration.py:183-190 | a start event exactly when the text passed three words; the completion exactly when the stream completed, last and with the whole text |
| CommandRouter.KeyedValuePlan | src/main/api/CommandHandler.js:114-123 | `setParameter`/`setPart` succeed exactly for a truthy id and a defined value, sending one message with both and echoing exactly what it sent; otherwise they fail with the required-fields text (a destructuring error for a missing `data`) and send nothing |
| CommandRouter.Batch | src/main/api/CommandHandler.js:136-138 | one message per entry, in array order, up to the first nullish entry; the loop throws exactly when there is one, and then at that entry |
| CommandRouter.BatchPlan | src/main/api/CommandHandler.js:129-141 | a non-array field is rejected with its text before anything is sent; over an array the messages are the entries' in order, success comes exactly when no entry is nullish and reports the entry count, and a failure stops at the nullish entry |
| CommandRouter.InstantConfigPlan | src/main/api/CommandHandler.js:248-299 | succeeds exactly when the field is defined, sending one `control:change-instant-config` with the configuration name and the value unchanged and echoing the value; otherwise it fails with its text and sends nothing |
| CommandRouter.MotionInfo | src/main/api/CommandHandler.js:154-163 | the motion description holds the group, `index` exactly when it is defined, and `file`/`File` exactly when truthy, each with the given value |
| CommandRouter.PlayMotionPlan | src/main/api/CommandHandler.js:147-167 | succeeds exactly for a truthy group, sending one `control:play-motion` with the motion description and echoing it; otherwise `group is required` and nothing sent |
| CommandRouter.PlayRandomMotionPlan | src/main/api/CommandHandler.js:173-182 | fails only for `data === null`; otherwise one `control:play-motion` with the group or `null` and `random: true`, reporting the group or `any` |
| CommandRouter.SetExpressionPlan | src/main/api/CommandHandler.js:198-209 | succeeds exactly for a truthy expression, sending it and echoing it; otherwise `expression is required` and nothing sent |
| CommandRouter.SetFocusPlan | src/main/api/CommandHandler.js:305-317 | succeeds exactly when `x` and `y` are defined, sending both and echoing them; otherwise `x and y are required` and nothing sent |
| CommandRouter.PlaySequencePlan | src/main/api/CommandHandler.js:376-390 | succeeds exactly with a defined index or a truthy name, sending both and echoing them; otherwise `sequenceIndex or sequenceName is required` and nothing sent |
| CommandRouter.SetBodyGroupPlan | src/main/api/CommandHandler.js:404-413 | succeeds exactly when index and value are defined, sending both and echoing them; otherwise `bodyGroupIndex and value are required` and nothing sent |
| CommandRouter.SetSkinPlan | src/main/api/CommandHandler.js:419-428 | succeeds exactly when the index is defined, sending it and echoing it; otherwise `skinIndex is required` and nothing sent |
| CommandRouter.Translate | src/main/api/CommandHandler.js:23-103 | an action outside the table (or not a string) is `Unknown action`; a success always reports the requested action; only `loadModel`, `showDisplay` and `hideDisplay` make window requests; outside the two batch commands a plan holds at most one message, and none when it fails |
| CommandRouter.HandleOutcome | src/main/api/CommandHandler.js:17-108 | without a display window nothing is delivered; what is delivered is all of the handler's messages or none; a success delivered all of them |
| CommandRouter.CommandHandler.constructor | src/main/api/CommandHandler.js:9-11 | nothing delivered, nothing requested |
| CommandRouter.CommandHandler.SetDisplayWindow | src/main/api/CommandHandler.js:472 | the display window exists exactly when it was opened |
| CommandRouter.CommandHandler.SendToDisplay | src/main/api/CommandHandler.js:471-482 | with a display window one `{channel, data}` is delivered; without one it throws `Display window is not open` and delivers nothing |
| CommandRouter.CommandHandler.Handle | src/main/api/CommandHandler.js:17-108 | a nullish command throws from the destructuring before the `try` and changes nothing; any other command returns, delivers and requests exactly what `HandleOutcome` says |
| CommandRouter.CommandHandler.Deliver | src/main/api/CommandHandler.js:471-482 | with a display window every message in order; without one nothing, and the throw unless nothing was to be sent |
| CommandRouter.UnknownActionRejected | src/main/api/CommandHandler.js:100-103 | an action outside the table fails with `Unknown action` and produces nothing |
| CommandRouter.SetParameterNeedsFields | src/main/api/CommandHandler.js:115-119 | a falsy id or an undefined value fails with the required-fields error and sends nothing |
| CommandRouter.BatchAction | src/main/api/CommandHandler.js:129-241 | exactly `setParameters` and `setParts` are batch commands, with their array field, id key, channel and error text |
| CommandRouter.BatchOnePerEntry | src/main/api/CommandHandler.js:129-241 | a batch of non-nullish entries sends one message per entry in order, with the entry's id and value, and reports their count |
| CommandRouter.BatchNeedsArray | src/main/api/CommandHandler.js:132-134 | a batch field that is not an array fails with its text before anything is sent |
| CommandRouter.BatchStopsAtNullishEntry | src/main/api/CommandHandler.js:104-138 | a nullish entry at position k throws after the k entries before it were delivered |
| CommandRouter.KeyedAction | src/main/api/CommandHandler.js:114-224 | exactly `setParameter` and `setPart` are keyed commands, with their id key, channel and error text |
| CommandRouter.KeyedCommands | src/main/api/CommandHandler.js:114-224 | with a truthy id and a defined value exactly one message with both is sent and echoed; otherwise the command's own error and nothing sent |
| CommandRouter.PlayMotionCommand | src/main/api/CommandHandler.js:147-167 | without a truthy group `group is required` and nothing sent; with one, the motion description is sent and echoed |
| CommandRouter.SetExpressionCommand | src/main/api/CommandHandler.js:198-209 | without a truthy expression `expression is required`; with one, it is sent and echoed |
| CommandRouter.SetFocusCommand | src/main/api/CommandHandler.js:305-317 | with either coordinate undefined `x and y are required`; otherwise both are sent and echoed |
| CommandRouter.SetBodyGroupCommand | src/main/api/CommandHandler.js:404-413 | with the index or value undefined `bodyGroupIndex and value are required`; otherwise both are sent and echoed |
| CommandRouter.SetSkinCommand | src/main/api/CommandHandler.js:419-428 | with the index undefined `skinIndex is required`; otherwise it is sent and echoed |
| CommandRouter.StopSequenceCommand | src/main/api/CommandHandler.js:395-398 | `stopSequence` sends one empty `control:stop-sequence` whatever its data |
| CommandRouter.FailureSendsNothing | src/main/api/CommandHandler.js:17-108 | outside the two batch commands a failed command has sent nothing |
| CommandRouter.NoDisplayWindow | src/main/api/CommandHandler.js:471-476 | without a display window nothing is delivered; a command that would send fails with `Display window is not open`, one that sends nothing keeps its own result |
| CommandRouter.EmptyBatchWithoutDisplay | src/main/api/CommandHandler.js:136-140 | an empty `parameters` array succeeds with count 0 even without a display window |
| CommandRouter.AtMostOneMessage | src/main/api/CommandHandler.js:23-99 | every command except the two batch commands sends at most one message |
| CommandRouter.StopMotionSendsNone | src/main/api/CommandHandler.js:187-192 | `stopMotion` sends the group `none` |
| CommandRouter.RandomMotionWithoutGroup | src/main/api/CommandHandler.js:173-182 | without a truthy group, `playRandomMotion` sends group `null` and reports `any` |
| CommandRouter.InstantConfigName | src/main/api/CommandHandler.js:248-299 | exactly the five instant-configuration commands have a configuration name and a required field |
| CommandRouter.InstantConfigCommands | src/main/api/CommandHandler.js:248-299 | with the field defined: one `control:change-instant-config` with the name and the unchanged value, echoed back; with it undefined: a failure and nothing sent |
| CommandRouter.PlaySequenceValidation | src/main/api/CommandHandler.js:376-390 | needs a defined index or a truthy name; on success both are sent and echoed |
| CommandRouter.MissingData | src/main/api/CommandHandler.js:115 | a handler that destructures a missing `data` fails and produces nothing |
| ApiGateway.EffectiveConfig | src/main/api/ApiServer.js:12-19 | the keys are the caller's plus the three defaults; every key the caller gave keeps the caller's value; absent ports are 8765 and 8766 and an absent `enabled` is true |
| ApiGateway.EnabledUnlessFalsy | src/main/api/ApiServer.js:17-33 | the gateway starts exactly when the caller gave no `enabled` or a truthy one |
| ApiGateway.DefaultConfig | src/main/api/ApiServer.js:12-19 | with no configuration: ports 8765 and 8766, enabled |
| ApiGateway.MessageEffect | src/main/api/ApiServer.js:169-193 | throws exactly on `null`/`undefined`; emits the message exactly when its `action` is truthy; at most one reply, and none without a socket |
| ApiGateway.MissingActionRejected | src/main/api/ApiServer.js:173-180 | an envelope without a truthy action gets the error frame on a socket, nothing over HTTP, and is never emitted or acknowledged |
| ApiGateway.ActionEmittedAndAcked | src/main/api/ApiServer.js:182-192 | an envelope with an action is emitted once and acknowledged with that same action |
| ApiGateway.RouteTable | src/main/api/ApiServer.js:103-153 | 200 exactly for a preflight, a POST whose body parses to a non-null value, and `GET /health`; 400 exactly for the other POSTs; 404 for everything else |
| ApiGateway.PostWithoutActionAccepted | src/main/api/ApiServer.js:121-180 | a POST body without an action still answers `Command received` and emits nothing |
| ApiGateway.RecipientsAppend | src/main/api/ApiServer.js:200-204 | one more logged frame adds exactly its recipient |
| ApiGateway.ApiServer.constructor | src/main/api/ApiServer.js:12-24 | the effective configuration, no servers, an empty registry, nothing sent or emitted |
| ApiGateway.ApiServer.OpenClients | src/main/api/ApiServer.js:200-201 | exactly the registered clients whose `readyState` is 1 |
| ApiGateway.ApiServer.Start | src/main/api/ApiServer.js:29-43 | the servers run exactly when the effective `enabled` is truthy (or they already ran) |
| ApiGateway.ApiServer.OnConnection | src/main/api/ApiServer.js:56-67 | the client is registered, open, and sent the welcome frame |
| ApiGateway.ApiServer.SetReadyState | src/main/api/ApiServer.js:201 | only that client's ready state changes |
| ApiGateway.ApiServer.HandleMessage | src/main/api/ApiServer.js:169-193 | throws, emits and replies exactly as `MessageEffect` says, the replies going to the sending socket |
| ApiGateway.ApiServer.OnFrame | src/main/api/ApiServer.js:69-81 | a frame that does not parse, or parses to `null`, gets one `Invalid JSON format` error frame with the reason and emits nothing; any other gets exactly its one reply |
| ApiGateway.ApiServer.OnClose | src/main/api/ApiServer.js:83-86 | exactly that client leaves the registry |
| ApiGateway.ApiServer.OnHttpRequest | src/main/api/ApiServer.js:103-153 | the reply is `Route`'s, nothing is sent on a socket, and a POST emits what `handleMessage` emits |
| ApiGateway.ApiServer.BroadcastMessage | src/main/api/ApiServer.js:198-205 | one frame of the payload to every registered open client and to no one else; earlier frames untouched |
| ApiGateway.ApiServer.Offer | src/main/api/ApiServer.js:200-203 | a frame for the client exactly when its socket is open |
| ApiGateway.ApiServer.Stop | src/main/api/ApiServer.js:210-224 | the servers stop and the registry is empty |
| ApiGateway.Enabled | src/main/api/ApiServer.js:30 | `start` goes on exactly when `enabled` is present and is none of JavaScript's falsy values |
| ApiGateway.Status | src/main/api/ApiServer.js:103-153 | 200 exactly for a preflight, a received command and the health check; 400 exactly for a bad request; 404 exactly for an unknown endpoint |
| ApiGateway.Route | src/main/api/ApiServer.js:103-153 | a preflight exactly for `OPTIONS`; `Command received` exactly for a POST whose body parses to a non-null value; a bad request for the other POSTs, carrying the parse error or the `null` TypeError; the health reply exactly for `GET /health`; not found otherwise |
| ApiGateway.Recipients | src/main/api/ApiServer.js:200-204 | every client a logged frame went to from `from` on, and no other; none past the end of the log |
| Sequencer.FirstMatchFrom | src/renderer/display/utils/mdl/AnimationManager.js:35-37 | the first position from `from` on whose name matches case-insensitively, none matching before it, or none at all |
| Sequencer.FirstMatch | src/renderer/display/utils/mdl/AnimationManager.js:35-37 | `findIndex`: the first matching sequence with no match before it, or none when no name matches |
| Sequencer.Duration | src/renderer/display/utils/mdl/AnimationManager.js:120-195 | always positive; with a frame count and a frame rate it is their quotient |
| Sequencer.RemInPeriod | src/renderer/display/utils/mdl/AnimationManager.js:127 | for a non-negative time the JavaScript remainder lies in `[0, d)`, and a time at or past `d` has gone round at least once |
| Sequencer.RemOfOvershoot | src/renderer/display/utils/mdl/AnimationManager.js:127 | overshooting the end by less than one period wraps exactly to the overshoot |
| Sequencer.TickStaysInClip | src/renderer/display/utils/mdl/AnimationManager.js:115-133 | a tick keeps the playhead in `[0, d)`, keeps playing exactly when looping or before the end, and a stopped clip is rewound |
| Sequencer.TickEnds | src/renderer/display/utils/mdl/AnimationManager.js:60-131 | a non-looping tick that reaches the end stops and rewinds |
| Sequencer.TickWraps | src/renderer/display/utils/mdl/AnimationManager.js:125-127 | a looping tick past the end keeps playing at the remainder, at least one period back |
| Sequencer.ListedName | src/renderer/display/utils/mdl/AnimationManager.js:205 | the sequence's own name when truthy, otherwise `Sequence <index>` |
| Sequencer.AnimationManager.constructor | src/renderer/display/utils/mdl/AnimationManager.js:8-21 | no current sequence, time 0, speed 1, not playing, looping; the invariant holds |
| Sequencer.AnimationManager.PlaySequence | src/renderer/display/utils/mdl/AnimationManager.js:28-55 | a number always becomes current, and succeeds exactly when in range; a name selects the first case-insensitive match; only success rewinds and plays; the invariant is kept |
| Sequencer.AnimationManager.Stop | src/renderer/display/utils/mdl/AnimationManager.js:60-64 | not playing, time 0 |
| Sequencer.AnimationManager.Pause | src/renderer/display/utils/mdl/AnimationManager.js:69-72 | not playing, time kept |
| Sequencer.AnimationManager.Resume | src/renderer/display/utils/mdl/AnimationManager.js:77-82 | plays again exactly when a sequence is selected |
| Sequencer.AnimationManager.SetLoop | src/renderer/display/utils/mdl/AnimationManager.js:88-90 | the loop flag is the argument |
| Sequencer.AnimationManager.SetSpeed | src/renderer/display/utils/mdl/AnimationManager.js:96-98 | `Math.max(0, speed)` |
| Sequencer.AnimationManager.Update | src/renderer/display/utils/mdl/AnimationManager.js:105-137 | nothing unless a valid sequence plays; otherwise the playhead moves as `Tick` says; the invariant is kept |
| Sequencer.AnimationManager.GetDuration | src/renderer/display/utils/mdl/AnimationManager.js:183-196 | the current sequence's duration, 0 when there is none or the index is out of range |
| Sequencer.AnimationManager.GetCurrentSequence | src/renderer/display/utils/mdl/AnimationManager.js:165-177 | `null` exactly without a current sequence; otherwise its index, name (none when out of range), duration, time and playing flag |
| Sequencer.AnimationManager.GetSequenceList | src/renderer/display/utils/mdl/AnimationManager.js:202-209 | one entry per sequence in order, with the name, frame count and the frame rate defaulting to 30 |
| Sequencer.AnimationManager.Seek | src/renderer/display/utils/mdl/AnimationManager.js:215-222 | nothing without a sequence; otherwise the time clamped into `[0, duration]` |
| Sequencer.AnimationManager.Destroy | src/renderer/display/utils/mdl/AnimationManager.js:227-232 | stopped, rewound, and the sequence table dropped |
| Sequencer.UnknownNameChangesNothing | src/renderer/display/utils/mdl/AnimationManager.js:34-47 | a name that matches nothing leaves the player as it was |
| Sequencer.OutOfRangeIndexIsRemembered | src/renderer/display/utils/mdl/AnimationManager.js:31-33 | an out-of-range number becomes current, but nothing plays from it and later ticks change nothing |
| Sequencer.NonLoopingEndRewinds | src/renderer/display/utils/mdl/AnimationManager.js:60-131 | a non-looping clip that reaches its end stops and rewinds to 0, not left at its duration |
| Sequencer.Trunc | src/renderer/display/utils/mdl/AnimationManager.js:127 | truncation toward zero: within one below a non-negative number and within one above a negative one |
| Sequencer.JsRem | src/renderer/display/utils/mdl/AnimationManager.js:127 | for a positive divisor, JavaScript's `%` takes the sign of the dividend and stays below the divisor in size |
| Sequencer.Tick | src/renderer/display/utils/mdl/AnimationManager.js:115-133 | the clip keeps playing exactly when it loops or has not reached its end; before the end the time moves by `delta * speed`; a looping overshoot lands in `[0, d)`; a stopped clip is at 0 |
| Monitors.CheckOnce | src/renderer/display/utils/mdl/Monitor.js:32-42 | reports exactly when the index differs or the time moved more than 0.05; a report moves the snapshot to the current state, silence keeps it; afterwards nothing is left to report |
| Monitors.Replay | src/renderer/display/utils/mdl/Monitor.js:23-42 | one report per `update`/`checkUpdate` pair |
| Monitors.SilentDriftStaysWithinTolerance | src/renderer/display/utils/mdl/Monitor.js:32-42 | a run that never reports keeps the snapshot, and every time in it lies within 0.05 of the snapshot, so drift past the tolerance is always reported |
| Monitors.SequenceMonitor.constructor | src/renderer/display/utils/mdl/Monitor.js:9-16 | no index, time 0, and the same snapshot |
| Monitors.SequenceMonitor.Update | src/renderer/display/utils/mdl/Monitor.js:23-26 | records the current state, never the snapshot |
| Monitors.SequenceMonitor.CheckUpdate | src/renderer/display/utils/mdl/Monitor.js:32-42 | reports exactly on a change of index or a time more than 0.05 away; a report moves the snapshot, silence keeps it; nothing is left to report |
| Monitors.SequenceMonitor.GetState | src/renderer/display/utils/mdl/Monitor.js:48-53 | the current index and time |
| Monitors.SequenceMonitor.Reset | src/renderer/display/utils/mdl/Monitor.js:58-63 | back to the constructor's state, with nothing to report |
| Monitors.SequenceReportsOnce | src/renderer/display/utils/mdl/Monitor.js:32-42 | a second check straight after a first reports nothing |
| Monitors.Reported | src/renderer/display/utils/mdl/Monitor.js:100-105 | the snapshot after a check holds every current group at its current value, and the groups no longer present as they were |
| Monitors.BodyGroupMonitor.constructor | src/renderer/display/utils/mdl/Monitor.js:70-73 | both maps empty |
| Monitors.BodyGroupMonitor.Set | src/renderer/display/utils/mdl/Monitor.js:80-82 | the group takes the value |
| Monitors.BodyGroupMonitor.Get | src/renderer/display/utils/mdl/Monitor.js:89-91 | the group's value, `undefined` exactly for a group never set |
| Monitors.BodyGroupMonitor.CheckUpdate | src/renderer/display/utils/mdl/Monitor.js:97-108 | reports exactly when some group differs from the snapshot or was never reported, and records every group |
| Monitors.BodyGroupMonitor.GetState | src/renderer/display/utils/mdl/Monitor.js:114-116 | the groups as they are |
| Monitors.BodyGroupMonitor.Reset | src/renderer/display/utils/mdl/Monitor.js:121-124 | both maps cleared, nothing to report |
| Monitors.BodyGroupsReportOnce | src/renderer/display/utils/mdl/Monitor.js:97-108 | a second check straight after a first reports nothing |
| Monitors.SkinMonitor.constructor | src/renderer/display/utils/mdl/Monitor.js:131-134 | skin 0, snapshot 0 |
| Monitors.SkinMonitor.Set | src/renderer/display/utils/mdl/Monitor.js:140-142 | the skin is the argument |
| Monitors.SkinMonitor.Get | src/renderer/display/utils/mdl/Monitor.js:148-170 | the current skin |
| Monitors.SkinMonitor.CheckUpdate | src/renderer/display/utils/mdl/Monitor.js:156-162 | reports exactly when the skin differs from the snapshot, which then holds the skin |
| Monitors.SkinMonitor.Reset | src/renderer/display/utils/mdl/Monitor.js:175-178 | skin and snapshot back to 0 |
| Monitors.SkinReportsOnce | src/renderer/display/utils/mdl/Monitor.js:130-162 | a fresh monitor reports nothing, then reports a change to another skin exactly once |
| InstantConfigs.Read | src/renderer/display/modelManagers/SourceEngineManager.js:206-219 | both `trackMouse` and `_trackMouse` read the backing slot; a name with no slot reads `undefined` |
| InstantConfigs.WriteThenRead | src/renderer/display/modelManagers/SourceEngineManager.js:206-219 | a written value reads back under its name and leaves every unrelated name alone; only a falsy write through the `trackMouse` setter changes the helper, and it then zeroes an existing helper |
| InstantConfigs.Write | src/renderer/display/modelManagers/SourceEngineManager.js:206-219 | the value reads back under its name; a new slot appears only for a name other than the two tracking names; a helper exists afterwards exactly when it did before, and changes only when `trackMouse` is set falsy, to zero |
| SourceEngine.SequenceAt | src/renderer/display/modelManagers/SourceEngineManager.js:274 | only an integral in-range number finds a sequence |
| SourceEngine.ExactMatchFrom | src/renderer/display/modelManagers/SourceEngineManager.js:353-355 | `findIndex` with `===`: the first exact, case-sensitive name match, with none before it, or -1 |
| SourceEngine.ResolveIndex | src/renderer/display/modelManagers/SourceEngineManager.js:352-356 | a falsy name keeps the index; a truthy name gives an index that is in range exactly when some sequence has that name |
| SourceEngine.Moved | src/renderer/display/modelManagers/SourceEngineManager.js:272 | the playhead is a number exactly when the time and the speed are, and then it moves by `delta * speed` |
| SourceEngine.AdvanceCases | src/renderer/display/modelManagers/SourceEngineManager.js:270-282 | before the end the playhead moves by `delta * speed`; at or past a non-zero duration it restarts at 0 when looping and is held at the duration otherwise |
| SourceEngine.NaNSpeedIsSticky | src/renderer/display/modelManagers/SourceEngineManager.js:272 | a non-numeric speed makes the playhead `NaN` and no later frame recovers it |
| SourceEngine.SourceEngineManager.constructor | src/renderer/display/modelManagers/SourceEngineManager.js:14-18 | nothing loaded: no sequences, none running, time 0, skin 0, no configuration, no helper, no clock |
| SourceEngine.SourceEngineManager.LoadModel | src/renderer/display/modelManagers/SourceEngineManager.js:72-120 | the configuration is reset even when the load fails; a load replaces the sequences, body groups and skins, clears the selection, rewinds, takes skin 0 and a new helper; a failed load changes nothing else |
| SourceEngine.SourceEngineManager.PlaySequence | src/renderer/display/modelManagers/SourceEngineManager.js:351-380 | an in-range index (after name lookup) is selected, rewound, the clock created and announced with its name; an index in range but not integral throws after selecting; anything else changes nothing |
| SourceEngine.SourceEngineManager.StopSequence | src/renderer/display/modelManagers/SourceEngineManager.js:385-389 | nothing runs, time 0 |
| SourceEngine.SourceEngineManager.SetBodyGroup | src/renderer/display/modelManagers/SourceEngineManager.js:396-408 | only an in-range index is announced, and no state changes |
| SourceEngine.SourceEngineManager.SetSkin | src/renderer/display/modelManagers/SourceEngineManager.js:414-427 | an in-range index becomes the skin and is announced; anything else changes nothing |
| SourceEngine.SourceEngineManager.ChangeInstantConfig | src/renderer/display/modelManagers/SourceEngineManager.js:338-341 | throws exactly before the first load; otherwise the write goes through `Write` |
| SourceEngine.SourceEngineManager.HandleMessage | src/renderer/display/modelManagers/SourceEngineManager.js:309-344 | unknown channels change nothing; stop clears the selection, keeps the clock and `set-node-transform` forwards `data` as it is, missing or not; every other channel throws on a missing `data` and changes nothing, and otherwise binds the node, plays (as `PlaySequence`), announces a body group, sets the skin or writes the configuration (as `ChangeInstantConfig`), leaving the sequence tables alone |
| SourceEngine.Started | src/renderer/display/modelManagers/SourceEngineManager.js:367-375 | one `manager:sequence-started` notice for a sequence that exists, carrying its index and its name (`undefined` when unnamed); nothing otherwise |
| SourceEngine.SourceEngineManager.UpdateObjects | src/renderer/display/modelManagers/SourceEngineManager.js:254-297 | a selected sequence with a clock moves as `Advance` says, otherwise time stands; the helper turns to the aim exactly when tracking is on, nothing runs and a helper exists |
| SourceEngine.DefaultsAfterLoad | src/renderer/display/modelManagers/SourceEngineManager.js:203-220 | after a load tracking is on, the speed is 1 and looping is on |
| SourceEngine.UnknownNameIsOutOfRange | src/renderer/display/modelManagers/SourceEngineManager.js:352-379 | a name no sequence carries exactly leaves the selection alone |
| SourceEngine.TrackingOffStaysZero | src/renderer/display/modelManagers/SourceEngineManager.js:211-216 | switching tracking off zeroes the helper and the next frame does not turn it |
| SourceEngine.Advance | src/renderer/display/modelManagers/SourceEngineManager.js:270-282 | a number exactly when the time and the speed are; with a positive duration never past it, and before it when looping; without a duration the unclamped sum |
| GltfBackend.GltfManager.constructor | src/renderer/display/modelManagers/GltfManager.js:10-13 | no configuration, no helper, no transform requests |
| GltfBackend.GltfManager.LoadModel | src/renderer/display/modelManagers/GltfManager.js:55-124 | the configuration is reset to tracking off before loading; a scene with a mesh gets a new helper, otherwise the old one stays |
| GltfBackend.GltfManager.HandleMessage | src/renderer/display/modelManagers/GltfManager.js:155-171 | node-transform requests are forwarded; an instant-config write goes through `Write` and throws before the first load; a missing `data` throws except on `set-node-transform`; other channels change nothing |
| GltfBackend.GltfManager.UpdateObjects | src/renderer/display/modelManagers/GltfManager.js:151-153 | the helper turns to the aim exactly when tracking is on and a helper exists |
| GltfBackend.NoTrackingAfterLoad | src/renderer/display/modelManagers/GltfManager.js:97-153 | a freshly loaded model does not follow the mouse |
| GltfBackend.TrackingOnFollows | src/renderer/display/modelManagers/GltfManager.js:104-153 | switching tracking on makes a model with a mesh follow |
| GltfBackend.TrackingOffZeroes | src/renderer/display/modelManagers/GltfManager.js:104-153 | switching tracking off zeroes the helper and it stays there |
| GltfBackend.SourceChannelsIgnored | src/renderer/display/modelManagers/GltfManager.js:155-171 | sequence, skin and body-group messages change nothing and do not throw |
| Text.Lower | mcp/auto_animation_bridge.py:39 | `str.lower()` on ASCII: same length, each character lower-cased |
| Text.LowerIdempotent | examples/python_client.py:147-150 | lower-casing twice is lower-casing once |
| Text.ContainsChar | mcp/adaptive_animation.py:378 | a one-character substring occurs exactly when the character does |
| Text.LowerKeeps | mcp/adaptive_animation.py:378 | lower-casing neither adds nor removes a character that is not a letter, such as `!` |
| Text.CountChar | mcp/auto_animation_bridge.py:51 | `str.count` of one character: at most the length, and 0 exactly when it is absent |
| Text.TripleImpliesCount | mcp/auto_animation_bridge.py:67 | `'!!!' in text` implies `text.count('!') >= 3` |
| Text.DropWord | mcp/auto_animation_bridge.py:269 | skipping a word leaves an empty rest or one starting at whitespace, whitespace being Python's full `str.isspace()` set (`Text.IsSpace`) |
| Text.WordCount | mcp/auto_animation_bridge.py:269 | `len(text.split())`, splitting at Python's full whitespace set (`Text.IsSpace`), is at most the length |
| Text.WordCountZero | mcp/auto_animation_bridge.py:269-273 | no words exactly when every character is whitespace in the `str.isspace()` sense (`Text.IsSpace`) |
| Text.DropWordAppend | mcp/lmstudio_integration.py:178-183 | how skipping a word distributes over concatenation |
| Text.WordCountAppend | mcp/lmstudio_integration.py:178-183 | appending a streamed token never lowers the word count |
| Text.ReprQuote | examples/mcp_server/mcp_server.py:376-380 | Python's `repr` quotes with `"` exactly when the text holds `'` and no `"`, otherwise with `'` |
| Text.ReprChar | examples/mcp_server/mcp_server.py:376-380 | a printable ASCII character other than a quote or backslash is written as itself; every character gives at least one character |
| Text.ReprBody | examples/mcp_server/mcp_server.py:376-380 | text of plain printable characters is written unchanged, and escaping never shortens |
| Text.PyRepr | examples/mcp_server/mcp_server.py:376-380 | `str(KeyError(k))`: the key between two matching quotes of the chosen kind; plain text comes out as `'<text>'` |
| Text.ApostropheReprDoubleQuoted | examples/mcp_server/mcp_server.py:376-380 | the key `it's` is shown as `"it's"` |
| Text.NatToString | src/renderer/display/utils/mdl/AnimationManager.js:205 | the decimal rendering is non-empty and all digits |
| Values.Prop | src/main/api/CommandHandler.js:115 | a defined property read comes from an object that has the key |
| Values.ToNumber | src/renderer/display/modelManagers/SourceEngineManager.js:358 | a number converts to itself; of the nullish values only `null` converts (to 0) |
| Values.ParamList | src/main/api/CommandHandler.js:136-137 | one `{parameterId, value}` entry per pair, in order |
| Speech.FrameCount | mcp/server.py:326 | `int(duration * 10)` as `range` uses it: the floor of ten times a non-negative duration, no frame below 0.1 s |
| Speech.Triangle | mcp/server.py:329 | the wave lies in `[0, 1]` |
| Speech.TriangleFormula | mcp/server.py:329 | `abs((i % 4) - 2) / 2` is the four-step wave full, half, closed, half |
| Speech.TriangleFrames | mcp/server.py:326-335 | one mouth command per frame, frame `i` at `intensity` times the wave |
| Speech.Spoken | mcp/server.py:323-343 | breathing off, the frames, the mouth closed, breathing on |
| Speech.SpeechDuration | mcp/auto_animation_bridge.py:269-270 | 0.15 s per word, between 0 and 8 s |
| Speech.SpeaksIffThreeWords | mcp/auto_animation_bridge.py:269-273 | `duration > 0.3` holds exactly for three words or more |
| Speech.SpokenInSteps | mcp/server.py:323-343 | sending the parts of a speech one by one sends the speech |

## Left out

- Transport and I/O: WebSocket and HTTP binding, socket reads and writes, IPC to windows, the LM Studio HTTP session and the `windowManager` calls are outbox appends, flags or parameters; JSON serialization, timestamps and `JSON.parse` are given as parse results.
- Timers: the connection and command timeouts, `sleep`/`setTimeout` pacing between frames, and `asyncio.create_task` concurrency are not modelled; the frames are sent in order.
- Randomness: `Math.random` and `random.choice` are parameters of the members that use them.
- Idle behaviours: the idle loops and `start_idle_behaviors` run forever at random intervals and are not modelled.
- Floating point: JavaScript and Python numbers are reals; `NaN` is represented only as a missing number (`None`), and infinities are not represented.
- Number conversion: `ToNumber` of strings and arrays is not modelled (they are treated as not numbers); the Python servers' handling of a digit string as a duration is modelled as raising, like every other non-number.
- Lower-casing is ASCII-only; Unicode case folding is not modelled.
- Inherited JavaScript object keys: lookups such as `emotions[emotion] \|\| neutral` and `!emotions[emotion]` see only the table's own keys, not `Object.prototype` members such as `constructor`.
- WebSocket `close` events in the JavaScript MCP server are modelled only between sends, as a dropped connection.
- Interpreter error messages (`TypeError` texts and the like) are represented by one constant exception value.
- Text.PyRepr: quotes and escapes as Python's `repr` does for ASCII text (quote choice, backslash, `\t` `\n` `\r`, `\xNN` for other control characters); the `\xNN`/`\uNNNN` escaping of non-printable non-ASCII characters is not modelled, they are copied as they are.
- McpServerPy.CallTool: a `tools/call` request without `arguments` makes `arguments[...]` raise a `TypeError` on `None`, which the server answers as an error; the model's arguments are always a dictionary (possibly empty), so that path is not modelled.
- ExampleMcpServer.CallTool: a call without `arguments` is not modelled either; the model's arguments are always a dictionary.
- McpServerJs.CallTool: a `tools/call` request without `arguments` makes `args.<key>` throw a `TypeError` on `undefined`, which the server answers as an error; the model's arguments are always an object (possibly empty), so that path is not modelled.
- McpServerJs.EmotionPlan: JavaScript converts a non-string `emotion` to a property key (`["happy"]` selects the happy preset); the model treats every non-string as unknown and sends the neutral preset.
- SourceEngine.SourceEngineManager.ChangeInstantConfig: a non-string `name` is converted to a property key and written in the source; the model writes only for a string name and otherwise changes nothing (the router always sends a string).
- SourceEngine.SourceEngineManager.HandleMessage: on `change-instant-config` with a non-string `name`, as `ChangeInstantConfig` above.
- GltfBackend.GltfManager.HandleMessage: `instantConfig[name] = value` with a non-string `name` is written under the converted key in the source; the model changes nothing then.
- The main/shutdown paths, the interactive chat loop, the MCP `list_tools` schemas and `sendCommandHttp` are not modelled; they are fixed data or console I/O.
- Node client: a handler that subscribes or unsubscribes while messages are dispatched (mutation of the Map during `forEach`) is not modelled.
- Rendering and assets: scene, camera, lights, mesh building, bounding-box scaling, file fetching and MDL parsing are left out; a load is given by its parse result.
- `_applyAnimationToModel` and `_applyAnimationFrame` are placeholders of bone animation (trigonometry on bones) and are not modelled.
- The mouse-focus helper, transform monitor, 3D base manager and node-info tree are collaborators whose code is not part of this model; the helper's aim is an input rotation and the node-transform requests are recorded as they are forwarded.
- Sequencer.AnimationManager.Destroy: `sequences = null` is modelled as an empty table.
- AutoAnimation.AnimationController.Send: `send_command`'s WebSocket round trip is not modelled; a command is appended to the outbox.
- Adaptive.AdaptiveController.Send: the result of sending a command is not inspected; the parameters and groups the model accepts are given as sets.
- NodeClient.HimeDisplayClient.Message: a frame that parses to `null` makes `message.type` throw, and a handler that throws stops the handlers after it; the model reads every parsed frame as a value and takes handlers as values that do not throw.
- Sequencer.SequenceInfo: frame counts are natural numbers and frame rates non-negative reals; a negative or non-numeric count or rate in a file is not modelled.
- Sequencer.SequenceId: a numeric id is an integer; a fractional index passed to `playSequence` is not modelled.
- SourceEngine.SourceEngineManager.constructor: before the first load the sequence, body-group and skin tables are taken as empty; in the source they come from the 3D base manager's `_initObjects`, which is not part of this model, and an unset table would make a play before any load throw.
- Logging and console output are not modelled.
