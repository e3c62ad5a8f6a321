# birdbox in Dafny

A verified model of the three stateful parts of birdbox. The relay server
pairs one player device with browser clients. The player agent plays videos
with `mpv` and reconnects to the server. The camera stream turns the
`rpicam-vid` MJPEG output into single JPEG frames.

- `common.dfy`: `Option`, the `Invocation` value that stands for a
  `child_process.spawn` call, and two small helpers.
- `camera.dfy` (cameraStream.js): the `rpicam-vid` argument list with its
  defaults, and the `onFrame` data handler.
  - `Split` is the specification of the extraction loop on a buffer.
  - `Drain` is the loop itself, proved to compute `Split`.
  - The class `FrameStream` holds the buffer between chunks. Its invariant
    says the frames emitted so far are exactly the frames of all bytes
    received, and that the buffer is what the loop left behind.
- `relay.dfy` (server.js): the player slot `birdbox` and the browser list
  `clients`.
  - The `message` and `close` handlers are the functions `Receive` and
    `Disconnect`, and the methods of the class `Server`.
  - `Run` drives the registry through a trace of socket events.
  - Also here: `sendBirdboxMessage`, and `findVideo` over catalog entries
    held as objects.
- `player.dfy` (birdbox.js): the slots `mpvProcess` and `reconnectTimer`.
  - A ghost log of spawned and killed processes, and a ghost set of pending
    timers.
  - Pure handler functions, and `Step`/`Run` over events guarded by what the
    runtime can deliver.
  - The class `Agent`, whose methods are proved equal to the handler
    functions and keep the invariants.

Behaviours of the code that the model keeps as they are:
- The server appends browser sockets without deduplication. They are not
  keyed by an identity.
- The player sends no handshake when its socket opens.
- The player has no process-exit listener and no generation counter.
- The server sends no notification on `notify-start`: the branch only visits
  the other clients.

## Model

| member | source | states |
|---|---|---|
| Camera.DecimalString | cameraStream.js:13-19 | `toString()` of a whole number up to `Number.MAX_SAFE_INTEGER` is a non-empty string of decimal digits with no leading zero, one digit exactly when the value is below 10 |
| Camera.DecimalRoundTrip | cameraStream.js:13-19 | every whole number up to `Number.MAX_SAFE_INTEGER`, printed into the argument list, reads back as the same number |
| Camera.StreamArgs | cameraStream.js:7-22 | the argument list has exactly 14 entries |
| Camera.StartStream | cameraStream.js:24 | the process launched is `rpicam-vid` with exactly the argument list `StreamArgs(options)`, 14 entries |
| Camera.StreamArgsFlags | cameraStream.js:7-22 | the flags are `--codec --timeout --width --height --framerate --quality -o`, each followed by its value, in that order |
| Camera.StreamArgsFixedValues | cameraStream.js:7-22 | the codec is `mjpeg`, the timeout is `0` and the output is `-` (stdout) |
| Camera.StreamArgsNumbers | cameraStream.js:5-19 | width, height, framerate and quality (whole numbers a JavaScript number holds exactly) read back as the caller's values, or as 640, 480, 10 and 40 when left out |
| Camera.IndexOf | cameraStream.js:40-41 | `buffer.indexOf(marker, from)` gives the first index at or after `from` where the marker begins, or -1 exactly when there is none |
| Camera.IndexOfExtend | cameraStream.js:30 | a marker found in the buffer is found at the same index once another chunk is appended |
| Camera.HasFrameIff | cameraStream.js:39-42 | the loop condition holds exactly when some FF D8 is followed by an FF D9 beginning two or more bytes later |
| Camera.FrameBounds | cameraStream.js:40-43 | when the loop condition holds, the frame starts on FF D8, ends after FF D9 and spans at least 4 bytes within the buffer |
| Camera.Split | cameraStream.js:39-47 | one discarded prefix per frame, and a final buffer no longer than the input; the buffer is untouched exactly when no frame is cut |
| Camera.SplitStep | cameraStream.js:43-44 | one turn cuts out the first frame, discards the bytes before its SOI and continues on exactly the bytes after its EOI |
| Camera.SplitDone | cameraStream.js:39-42 | when the condition fails no frame is emitted and the buffer is left as it is |
| Camera.SplitShapes | cameraStream.js:40-43 | every emitted frame has at least 4 bytes, starts with FF D8, ends with FF D9 and holds no other FF D9 before its last two bytes; no discarded prefix holds FF D8 |
| Camera.FirstFrameLocation | cameraStream.js:40-43 | the first frame begins at the first FF D8 of the buffer and ends at the first FF D9 that begins two or more bytes after it |
| Camera.SplitRestHasNoFrame | cameraStream.js:39-42 | when the loop exits, the buffer holds no FF D8 followed by an FF D9 starting two or more bytes later |
| Camera.SplitReconstructs | cameraStream.js:39-47 | nothing is lost or reordered: each discarded prefix followed by its frame, in order, then the final buffer, is the input |
| Camera.SplitExtendStep | cameraStream.js:30-44 | a frame complete before a chunk arrives is cut at the same place after the chunk is appended |
| Camera.SplitAppend | cameraStream.js:29-47 | chunk boundaries do not matter: the frames of `a + b` are the frames of `a`, then those of what `a` left behind followed by `b` |
| Camera.StreamAppend | cameraStream.js:29-30 | handling a chunk after earlier ones emits what handling the whole stream at once would emit next |
| Camera.Drain | cameraStream.js:39-47 | the `while` loop emits exactly the frames of `Split`, in order, and leaves exactly its final buffer |
| Camera.FrameStream.constructor | cameraStream.js:24-26 | a new stream launches `StartStream(options)` with an empty buffer |
| Camera.FrameStream.OnData | cameraStream.js:29-47 | the chunk is appended before scanning; the frames emitted and the new buffer are those of the old buffer plus the chunk, and all frames emitted so far are the frames of all bytes received |
| Relay.Without | server.js:119 | the filtered list holds every socket of the old one except `ws`, each as often as before, and never `ws` |
| Relay.WithoutAppend | server.js:119 | filtering distributes over concatenation, so the remaining sockets keep their relative order |
| Relay.WithoutAbsent | server.js:119 | removing a socket that is not listed leaves the list unchanged |
| Relay.NotifyOthers | server.js:92-100 | the `forEach` visits exactly the browser sockets other than the sender, in list order |
| Relay.Receive | server.js:58-108 | first registered wins: a filled player slot is kept, an empty one is filled only by a player handshake and then with the sender; a duplicate is rejected exactly when the slot is full; a browser handshake appends the sender even if already listed and nothing else touches the list; `notify-start` visits the other clients |
| Relay.CommandsKeepRegistry | server.js:84-107 | every message other than a handshake leaves `birdbox` and `clients` unchanged |
| Relay.Disconnect | server.js:114-122 | closing the player socket empties the slot and leaves the list alone, even if that socket is also listed; closing any other socket removes all of its occurrences and keeps the slot |
| Relay.RepeatedHandshakeUnregisters | server.js:66-116 | a player handshake repeated on the registered player's own socket is rejected by closing that socket, and its close event then empties the slot |
| Relay.PlayerKeptUntilClosed | server.js:66-72 | over any trace, the registered player stays registered until its own socket closes |
| Relay.PlayerOnlyByHandshake | server.js:64-74 | a socket reaches the player slot only by sending a player handshake |
| Relay.ClientsOnlyGrow | server.js:75-77 | without close events the browser list only grows at its end |
| Relay.FindAsWritten | server.js:150-153 | with `=`, the lookup sets every entry's id to the argument and returns every entry when the argument is non-empty, none otherwise |
| Relay.FindIntended | server.js:150-153 | the lookup with a comparison returns exactly the entries whose id equals the argument, in catalog order, and changes no id |
| Relay.FindVideoCounterexample | server.js:152 | on the catalog `["a", "b"]`, looking up `"a"` returns both entries and renames `"b"`; the comparison returns only the first |
| Relay.Server.constructor | server.js:46-51 | the server starts with no player, no clients and the catalog read at start-up |
| Relay.Server.OnMessage | server.js:58-108 | the handler's branches update the registry and reply exactly as `Receive` does |
| Relay.Server.OnClose | server.js:114-122 | the close handler updates the registry exactly as `Disconnect` does |
| Relay.Server.SendBirdboxMessage | server.js:27-39 | nothing is sent when there is no player or its socket is not OPEN; otherwise the message goes to the player, and a throwing send is caught; no state changes in any case |
| Relay.Server.FindVideoAsWritten | server.js:150-153 | the code as written: every catalog entry's id becomes the argument, and the whole catalog is returned when it is non-empty |
| Relay.Server.FindVideo | server.js:150-153 | the corrected lookup returns the entries picked by `FindIntended` and modifies nothing |
| Player.VideoPathRoundTrip | birdbox.js:36-41 | the video id is recovered from the played path `videos/<video>.mp4` |
| Player.MpvInvocation | birdbox.js:34-43 | the executable is `mpv` and the last argument plays `cmd.video`; outside `prod` it is the only argument, in `prod` it is preceded by `--fs --vo=drm` |
| Player.Stop | birdbox.js:46-52 | after `stop` no process is held, and the timer state is untouched |
| Player.Start | birdbox.js:26-44 | after `start` the new child is held and was spawned last, with the `mpv` invocation for the video; the timer state is untouched |
| Player.HandleMessage | birdbox.js:21-57 | no message touches the reconnect timer or the connection |
| Player.StopKeepsInvariant | birdbox.js:46-52 | `stop` kills exactly the held process and leaves no process live |
| Player.StopIdempotent | birdbox.js:46-52 | a second `stop` does nothing |
| Player.StartKeepsInvariant | birdbox.js:26-44 | `start` kills the held process first, then exactly one new process is spawned and becomes the only live one |
| Player.HandleMessageKeepsInvariant | birdbox.js:21-57 | every message keeps the invariant: only spawned processes are killed, and every spawned process other than the held one has been killed |
| Player.OtherMessagesChangeNothing | birdbox.js:24-55 | a message that is not a command, or a command other than `start`/`stop`, changes nothing |
| Player.AfterSchedule | birdbox.js:72-75 | `scheduleReconnect` does nothing while a timer is held; otherwise the slot holds the new `timer` and a `Timeout(timer, 30000)` is added to the pending ones |
| Player.AfterClose | birdbox.js:59-62 | after a close the socket is disconnected and a timer is held |
| Player.AfterOpen | birdbox.js:12-19 | after open the timer slot is empty and no pending timer is added, and the processes are untouched |
| Player.AfterFire | birdbox.js:74 | as written: when the timer fires a new socket is connecting and exactly the fired timer leaves the pending ones, but the slot still holds it |
| Player.AfterFireCorrected | birdbox.js:72-75 | corrected: the fired timer leaves the slot as well |
| Player.CloseBurstSchedulesOnce | birdbox.js:59-75 | any burst of close events schedules exactly one reconnect, for the first handle, with a 30000 ms delay |
| Player.ClosesWhileHeld | birdbox.js:72-73 | close events while a timer is held change nothing |
| Player.StepFrames | birdbox.js:12-67 | messages never touch the timer; socket and timer events never touch the process slot or the log |
| Player.OnlyOpenClearsTimer | birdbox.js:15-18 | only the `open` handler empties the timer slot |
| Player.StepKeepsOnePending | birdbox.js:12-75 | every event keeps at most one pending reconnect, which is the held timer with the 30000 ms delay |
| Player.StepKeepsProcessInvariant | birdbox.js:26-52 | every event keeps the process invariant |
| Player.RunKeepsInvariants | birdbox.js:4-75 | both invariants hold after any sequence of events |
| Player.StalledIsFinal | birdbox.js:59-75 | once disconnected with no reconnect pending, no event changes the agent again |
| Player.RetryFailureStalls | birdbox.js:72-75 | as written: drop, timer fires, the retry fails, and the agent is stalled with the fired timer still held |
| Player.StepCorrectedKeepsRecovering | birdbox.js:72-75 | with the correction, a timer is held exactly while disconnected, and it is the one pending |
| Player.RecoveringNeverStalls | birdbox.js:72-75 | a disconnected agent in that state always has a reconnect pending |
| Player.CorrectedNeverStalls | birdbox.js:59-75 | with the correction, no sequence of events ever stalls the agent |
| Player.Agent.constructor | birdbox.js:4-5 | both slots start empty (lines 4-5), and the first socket is connecting, as after the `connect()` call of line 70 |
| Player.Agent.OnMessage | birdbox.js:21-57 | the `start`/`stop` branches change the slot and the log exactly as `HandleMessage` does, and keep the invariants |
| Player.Agent.OnOpen | birdbox.js:12-19 | the `open` handler is `AfterOpen` |
| Player.Agent.ScheduleReconnect | birdbox.js:72-75 | `scheduleReconnect` is `AfterSchedule`, and keeps at most one pending reconnect |
| Player.Agent.OnClose | birdbox.js:59-62 | the `close` handler is `AfterClose` |
| Player.Agent.OnError | birdbox.js:64-67 | the `error` handler closes the socket, so its effect is the `close` handler's |
| Player.Agent.OnFireAsWritten | birdbox.js:74 | the timer callback as written is `AfterFire`: the slot keeps the fired timer, and the invariants hold |
| Player.Agent.OnFire | birdbox.js:74 | the timer callback with the correction: the slot is emptied and nothing is left pending |

## Left out

- JSON decoding and encoding, and the WebSocket transport. Messages are decoded datatypes and sockets are opaque handles. A malformed message makes `JSON.parse` throw; that case is not modelled.
- Logging: `logger`, `console.log`/`console.error`, and the server's `error` handler (server.js:110-112), which only logs. The `Reply` of `Receive` records which logging branch was taken.
- The Express routes, dotenv and `app.listen` (server.js:1-22, 128-161). `/api/command` only forwards its body to `sendBirdboxMessage`, which is modelled.
- `broadcastMessage` (server.js:41) and the empty browser-command branch (server.js:85-86), which do nothing. The latter is the `Ignored` reply.
- Relay.Server.SendBirdboxMessage: the player socket's `readyState`, and whether `send` throws, are parameters. The bytes sent are not modelled.
- Relay.Server.FindVideoAsWritten and Relay.FindAsWritten: ids are strings, so JavaScript truthiness is "not empty". Numeric or missing ids are not modelled.
- Spawning and killing processes: `spawn` returns a fresh handle passed in as a parameter, and a `kill` is an entry in the log. Signals, failures and process exit are not modelled; birdbox.js has no exit listener.
- The `ENVIRONMENT` variable is a string parameter. Unset stands for any value other than `"prod"`.
- Time: a timer records its 30000 ms delay but there is no clock. The `setInterval` keep-alive (birdbox.js:77) is left out.
- Player.Step: only the socket made by the latest `connect()` is tracked. A late event from an earlier socket is not modelled. Messages are delivered only on an open socket, and only a pending timer fires.
- Player.Agent.OnError: after `ws.close()`, the `close` event is taken to run immediately.
- Camera.StreamOptions: options are whole numbers up to `Number.MAX_SAFE_INTEGER`. Negative, fractional, non-number or larger options are not modelled. Above that bound `toString()` prints the shortest digits that read back as the same double (`"18446744073709552000"` for 2^64), and from 10^21 on it prints exponent form; Camera.DecimalString does not produce either, and its `requires` keeps it within the bound.
- Camera.FrameStream: `onFrame` is taken to be called once per stream. Each further call adds another `data` listener sharing the one `buffer` (cameraStream.js:26-30), so every chunk would be appended once per listener. Several listeners on one buffer are not modelled.
- The `stderr` and `close` listeners of the camera process (cameraStream.js:50-56), which only log. Allocation by `Buffer.concat` is not modelled either.
- logger.js and cam-test.js are not part of this model.

## Findings

| source | as written | input that shows it | evidently intended | confidence | as-written member | corrected member |
|---|---|---|---|---|---|---|
| server.js:152 | `v.id = id` assigns the id to every entry and keeps each one when `id` is truthy | catalog ids `["a", "b"]`, `findVideo("a")`: both entries are returned and the second is renamed `"a"` | `v.id === id`: return the entries with that id and change nothing (the comment on line 151 calls the filename the video id) | high, not executed | Relay.FindAsWritten, Relay.FindVideoCounterexample, Relay.Server.FindVideoAsWritten | Relay.FindIntended, Relay.Server.FindVideo |
| birdbox.js:74 | the timer callback is `connect`; `reconnectTimer` stays set after the timer fires, and only `open` clears it | the connection drops (timer 1 scheduled), timer 1 fires, the new connection attempt fails with `close`: `scheduleReconnect` returns at line 73, and nothing is ever scheduled again | clear `reconnectTimer` when the timer fires, so that every failed attempt schedules the next one | medium, not executed | Player.AfterFire, Player.Agent.OnFireAsWritten, Player.RetryFailureStalls, Player.StalledIsFinal | Player.AfterFireCorrected, Player.CorrectedNeverStalls, Player.Agent.OnFire |
