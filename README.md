# Live GPU status client: a Dafny model

This project models the client side of a GPU dashboard. The client keeps
one latest status snapshot (the GPUs and the services running on them) and
one connection indicator (`connecting`, `connected`, `disconnected`) up to
date. It also turns the snapshot into the rows the page shows.

- **Push connection** (`src/hooks/useWebSocket.js`, module `PushConnection`).
  One socket reference at a time: a connect calls close() on the held socket
  before opening another. A socket can still be left open with no reference
  to it (see the behaviour notes below). A decoded frame replaces the snapshot unless it is
  a `ping`. Every close arms a reconnect timer. Its delay is
  `min(3000 * 1.5^k, 30000)` ms, where `k` counts the closes since the last
  open (module `Backoff`).
- **Pull connection** (`src/hooks/usePolling.js`, module `PollConnection`).
  One request at once, then one per interval. Each request aborts the one
  before it. An aborted request's outcome changes nothing. A failure reads
  `disconnected` only after an earlier success.
- **Device/service join** (`src/App.jsx`, module `DeviceJoin`). One row per
  GPU, in order. Each row carries the first service, in list order, whose
  `gpus` list holds the GPU's index. The module also has the count of GPUs
  in use and the connection badge label.
- **Tile helpers** (`src/components/GpuTile.jsx`, module `TileView`).
  Temperature class, type icon, short model name, uptime, context size,
  example-request choice, the click-to-expand toggle, and the example panel
  shown when a tile is expanded and has a service.
- Shared modules: `Telemetry` (the decoded values) and `Text` (decimal
  rendering of integers, ASCII lower-casing).

Both connection machines are written twice. A pure state record with a
`Step` function per event is what the lemmas about whole runs of events
use. A class has one method per event; each method states every field of
its new state and ties that state to `Step`. Sockets, timers, intervals
and requests are abstract handles. What the hooks do to the outside world
is kept as explicit state: the timers still armed, the sockets `close()`
was called on, the requests aborted.

Behaviour of the code that a reader might not expect, and that the model
keeps:

- A close sets `disconnected` even when the socket never opened
  (`CloseBeforeOpenDisconnects`).
- Teardown does not make the push machine inert. The close it causes still
  arms a new reconnect timer (`TeardownThenCloseRearms`). Cleanup followed by
  a new connect can leave a socket open that nothing refers to
  (`RemountOrphansSocket`).
- A socket that fails to construct leaves the socket reference as it was and
  arms no timer.
- Activation does not clear an interval that is already running. Only the
  cleanup (`StopPolling`) does that.

## Model

| member | source | states |
|---|---|---|
| `Backoff.Delay` | src/hooks/useWebSocket.js:49 | the delay is never below 3000 nor above 30000 |
| `Backoff.DelayFirstValues` | src/hooks/useWebSocket.js:49 | delays for attempts 0, 1, 2 are 3000, 4500, 6750; attempt 5 is 22781.25 |
| `Backoff.GrowthMonotone` | src/hooks/useWebSocket.js:49 | 1.5^k is non-decreasing in k |
| `Backoff.DelayMonotone` | src/hooks/useWebSocket.js:49 | a later attempt never waits less |
| `Backoff.DelaySaturates` | src/hooks/useWebSocket.js:49 | the delay equals the 30000 cap exactly when k >= 6 |
| `PushConnection.Initial` | src/hooks/useWebSocket.js:4-8 | no snapshot, `connecting`, no socket, counter 0, nothing armed or closed |
| `PushConnection.StepKeepsHandlesIssued` | src/hooks/useWebSocket.js:11-77 | every event keeps all held and recorded handles older than the next fresh one |
| `PushConnection.PushMachine.constructor` | src/hooks/useWebSocket.js:4-9 | the machine starts in the initial state |
| `PushConnection.PushMachine.Connect` | src/hooks/useWebSocket.js:11-20 | close() on the held socket first; then `connecting` with a fresh socket, or `disconnected` with the reference unchanged when construction throws (lines 54-57); nothing else changes |
| `PushConnection.PushMachine.OnOpen` | src/hooks/useWebSocket.js:22-26 | `connected` and the attempt counter back to 0; nothing else changes |
| `PushConnection.PushMachine.OnMessage` | src/hooks/useWebSocket.js:28-37 | a decoded non-ping frame replaces the snapshot; a ping or a payload that fails to decode leaves every field unchanged |
| `PushConnection.PushMachine.OnClose` | src/hooks/useWebSocket.js:43-53 | `disconnected`, socket reference cleared, counter k+1, one fresh timer armed with Delay(k) |
| `PushConnection.PushMachine.OnTimer` | src/hooks/useWebSocket.js:52 | an armed timer fires once and calls Connect; a cleared one does nothing |
| `PushConnection.PushMachine.Teardown` | src/hooks/useWebSocket.js:70-77 | the referenced timer is disarmed and close() is called on the referenced socket; the references stay |
| `PushConnection.SnapshotKeptWithoutFrames` | src/hooks/useWebSocket.js:28-33 | a run with no accepted frame leaves the snapshot as it was |
| `PushConnection.LatestFrameWins` | src/hooks/useWebSocket.js:28-33 | after any run of events the snapshot is the last accepted frame |
| `PushConnection.AttemptsWithoutOpen` | src/hooks/useWebSocket.js:43-52 | without an open, the counter grows by exactly the number of closes |
| `PushConnection.AttemptsSinceLastOpen` | src/hooks/useWebSocket.js:22-26 | the counter equals the number of closes since the last open |
| `PushConnection.ResetOnReconnect` | src/hooks/useWebSocket.js:25 | the first close after an open waits 3000 ms, whatever the earlier attempts |
| `PushConnection.CloseBeforeOpenDisconnects` | src/hooks/useWebSocket.js:45 | a close before any open reads `disconnected` |
| `PushConnection.TeardownThenCloseRearms` | src/hooks/useWebSocket.js:70-77 | teardown closes the socket and disarms its timer, but the resulting close arms a new timer |
| `PushConnection.RemountOrphansSocket` | src/hooks/useWebSocket.js:11-20 | cleanup, reconnect, late close and timer leave the second socket unreferenced and never closed |
| `PollConnection.Initial` | src/hooks/usePolling.js:6-11 | no snapshot, `connecting`, no error, not yet connected, no request, no interval |
| `PollConnection.ErrorMessage` | src/hooks/usePolling.js:26-27 | a non-ok response records `HTTP <code>`; any other failure records its own message (line 41) |
| `PollConnection.PollMachine.constructor` | src/hooks/usePolling.js:6-11 | the machine starts in the initial state |
| `PollConnection.PollMachine.BeginFetch` | src/hooks/usePolling.js:13-18 | the previous request is aborted and a new one issued; exactly the new one is live |
| `PollConnection.PollMachine.FinishFetch` | src/hooks/usePolling.js:20-47 | an aborted request changes nothing; a success sets snapshot, clears the error, sets the flag, reads `connected`; a failure records the message and reads `disconnected` iff a success came before |
| `PollConnection.PollMachine.Activate` | src/hooks/usePolling.js:60-65 | flag reset, `connecting`, one request issued now, one interval of the given period (default 3000) started |
| `PollConnection.PollMachine.OnTick` | src/hooks/usePolling.js:65 | a running interval starts a fetch; a cleared one does nothing |
| `PollConnection.PollMachine.StopPolling` | src/hooks/usePolling.js:50-58 | the interval is cleared and the reference nulled; no request is live afterwards |
| `PollConnection.StepKeepsConsistent` | src/hooks/usePolling.js:13-65 | every event keeps: all but the latest request aborted, `disconnected` only after a success |
| `PollConnection.OnlyLatestChangesState` | src/hooks/usePolling.js:37-38 | an outcome that changes anything belongs to the latest request |
| `PollConnection.StopIdempotent` | src/hooks/usePolling.js:50-58 | stopping twice is stopping once |
| `PollConnection.RunKeepsConsistent` | src/hooks/usePolling.js:13-65 | the invariant holds after any run of events |
| `PollConnection.RunKeepsAborted` | src/hooks/usePolling.js:14-15 | an aborted request stays aborted |
| `PollConnection.StaleResponseIgnored` | src/hooks/usePolling.js:37-38 | a superseded request's outcome, arriving after any further events, changes nothing |
| `PollConnection.ConnectingUntilFirstSuccess` | src/hooks/usePolling.js:33-46 | from a state with no success yet, any run with no successful request keeps the flag false and the indicator `connecting`, however many requests fail |
| `PollConnection.ConnectingFromStart` | src/hooks/usePolling.js:6-46 | from the hook's creation, the indicator reads `connecting` until the first success |
| `PollConnection.ConnectedUntilActivate` | src/hooks/usePolling.js:33-61 | once a success has been seen, only a new activation clears the flag |
| `PollConnection.FailureAfterSuccessDisconnects` | src/hooks/usePolling.js:30-46 | a success reads `connected`; a later request that fails, after any events other than activation, reads `disconnected` |
| `PollConnection.NextPollFailureDisconnects` | src/hooks/usePolling.js:30-46 | a success, then the interval fires and its new request fails: `disconnected` |
| `PollConnection.ActivationIssuesOne` | src/hooks/usePolling.js:60-64 | after activation exactly the new request is live |
| `DeviceJoin.Owner` | src/App.jsx:18-27 | the owner is absent iff no service claims the index, else it is the first claimant in list order |
| `DeviceJoin.LaterClaimIgnored` | src/App.jsx:21-23 | once some service claims an index, a later service's claim on it changes nothing |
| `DeviceJoin.BuildClaims` | src/App.jsx:18-27 | the map filled in place holds exactly the claimed indices, each with its first claimant |
| `DeviceJoin.Joined` | src/App.jsx:29-32 | one row per GPU |
| `DeviceJoin.GpuRows` | src/App.jsx:12-33 | no rows without a status; otherwise the reference join, missing lists read as empty |
| `DeviceJoin.JoinedRows` | src/App.jsx:29-32 | row i holds GPU i; its service is null iff no service claims the index, else the first claimant |
| `DeviceJoin.FirstClaimWinsExample` | src/App.jsx:19-31 | S1 claims 0 and 1, S2 claims 1 and 2: GPU 0 and 1 go to S1, GPU 2 to S2 |
| `DeviceJoin.ActiveRows` | src/App.jsx:35 | the filtered rows all have a service and are no more than the rows |
| `DeviceJoin.ActiveCountIsOwnedRows` | src/App.jsx:35 | the active count is the number of rows with a service, at most the row count |
| `DeviceJoin.ActiveCountBounds` | src/App.jsx:35 | no services means 0 active; every GPU owned means all active |
| `DeviceJoin.AllOwnedAllActive` | src/App.jsx:35 | the filter keeps every row when every row has a service |
| `DeviceJoin.BadgeLabel` | src/App.jsx:55-56 | `Live` exactly for connected, `...` for connecting, `Offline` for disconnected |
| `TileView.TempClass` | src/components/GpuTile.jsx:9-13 | hot from 80, warm from 60 below 80, cool below 60 |
| `TileView.HeatClass` | src/components/GpuTile.jsx:10-12 | each heat level has one of the class names `cool`, `warm`, `hot` |
| `TileView.HeatClassDistinct` | src/components/GpuTile.jsx:10-12 | different heat levels get different class names |
| `TileView.TempClassName` | src/components/GpuTile.jsx:9-13 | the class string is `hot` iff at least 80, `warm` iff from 60 below 80, `cool` iff below 60 |
| `TileView.TempClassMonotone` | src/components/GpuTile.jsx:9-13 | a higher temperature never gets a cooler class |
| `TileView.TypeIcon` | src/components/GpuTile.jsx:15-22 | own icon iff the lower-cased type is llm, stt or tts; the package otherwise or when absent |
| `TileView.Glyph` | src/components/GpuTile.jsx:17-20 | each icon prints one of the four emoji |
| `TileView.GlyphDistinct` | src/components/GpuTile.jsx:17-20 | different icons print different emoji |
| `TileView.TypeGlyph` | src/components/GpuTile.jsx:15-22 | the brain iff the lowered type is llm, microphone iff stt, speaker iff tts, the package otherwise or when absent |
| `TileView.TypeIconIgnoresCase` | src/components/GpuTile.jsx:16 | types equal up to case get the same icon |
| `TileView.LastSegment` | src/components/GpuTile.jsx:26-27 | the result has no '/', is a suffix, and is preceded by '/' when shorter than the input |
| `TileView.LastSegmentUnique` | src/components/GpuTile.jsx:26-27 | those three properties determine the last segment |
| `TileView.SegmentAfterSlash` | src/components/GpuTile.jsx:26-27 | dropping everything up to a '/' keeps the last segment |
| `TileView.LastPieceOfSplit` | src/components/GpuTile.jsx:26-27 | the last piece of splitting on '/' is the last segment |
| `TileView.ShortName` | src/components/GpuTile.jsx:24-28 | null for an absent or empty model, else the last segment, which has no '/' |
| `TileView.UptimeParts` | src/components/GpuTile.jsx:36-42 | days and hours when at least a day, hours and minutes when at least an hour, else minutes; the parts bound the elapsed time to the last unit |
| `TileView.FormatUptime` | src/components/GpuTile.jsx:30-43 | null without a start time, else the rendered uptime parts |
| `TileView.ContextSize` | src/components/GpuTile.jsx:45-51 | null for 0 or absent; the exact count below 1024; else k with 1024k-512 <= n < 1024k+512 (round half up) |
| `TileView.KiloRoundingUnique` | src/components/GpuTile.jsx:48 | any k within half a unit of n/1024 (upper on a tie) is the one chosen |
| `TileView.FormatMaxTokens` | src/components/GpuTile.jsx:45-51 | null exactly when the context size is null; `<n> ctx` for an exact count, `<k>K ctx` for a rounded one |
| `TileView.ModelName` | src/components/GpuTile.jsx:58 | the model when present and non-empty, else `model-name` |
| `TileView.ExampleFor` | src/components/GpuTile.jsx:55-62 | nothing without a service; STT iff lower-cased type is stt, TTS iff tts, chat otherwise (lines 94, 125) |
| `TileView.ExampleMatchesIcon` | src/components/GpuTile.jsx:15-22 | the example follows the icon; unknown types get the chat example |
| `TileView.Tile.constructor` | src/components/GpuTile.jsx:4 | a tile starts collapsed |
| `TileView.Tile.Rerender` | src/App.jsx:64 | a new render with the same key (GPU index) replaces the GPU and service props and keeps `expanded`; a different index is a new tile, which starts collapsed (the constructor) |
| `TileView.Tile.Click` | src/components/GpuTile.jsx:158-162 | a click toggles `expanded` when there is a service, else nothing changes; the props are untouched |
| `TileView.Tile.Panel` | src/components/GpuTile.jsx:251-259 | the example panel is shown exactly when expanded and a service is present, and then holds that service's example |
| `Text.NatToString` | src/hooks/usePolling.js:27 | a non-empty string of digits without a leading zero |
| `Text.ParseNatToString` | src/hooks/usePolling.js:27 | reading the rendered digits back gives the number |
| `Text.NatToStringInjective` | src/components/GpuTile.jsx:40-42 | different numbers render differently |
| `Text.IntToString` | src/components/GpuTile.jsx:40-42 | a negative number renders as a minus sign before its magnitude |
| `Text.Lower` | src/components/GpuTile.jsx:16 | same length; each ASCII capital is lowered, every other character kept |

## Left out

- Real `WebSocket`, `fetch`, `AbortController`, `setTimeout`, `setInterval` and `queueMicrotask` are not modelled. They appear as abstract handles and explicit events: open, message, close, timer fire, tick, request completion. Time itself is not modelled: an interval's period and a timer's delay are recorded, not waited for.
- `JSON.parse` and `response.json()` are not modelled. A push payload arrives already decoded as an optional snapshot. A decode failure, or a `null` payload whose `type` lookup throws, is `None`. A payload that decodes to something other than a record is not modelled.
- The socket's `onerror` handler only logs. Like every `console` call, it is left out.
- React plumbing is left out: state setters, effects, memoisation, and the `connectRef` indirection (src/hooks/useWebSocket.js:9, 60-63). The machine's `Connect` method is the stable entry point the timer calls. A connect that fails to construct sets `connecting` then `disconnected` in one handler; only the final value is modelled.
- Wall-clock reads and date parsing in `formatUptime` (src/components/GpuTile.jsx:31-34) are left out. `FormatUptime` takes the elapsed milliseconds as an integer, or none when there is no start time. An unparseable date, which gives `NaN` in the source, is not modelled.
- Floating-point display is left out: memory percentages and `toFixed(1)` gigabytes (src/components/GpuTile.jsx:6-7, 220). So are non-integer `max_tokens` values, and the exponent form JavaScript uses for numbers of 10^21 and above.
- `Text.Lower` lowers ASCII letters only, while JavaScript's `toLowerCase` covers all of Unicode. No non-ASCII character lowers to the letters of `llm`, `stt` or `tts`, so type comparisons give the same answers.
- The literal Python text of the three example requests (src/components/GpuTile.jsx:63-155) is left out. The model keeps which example is chosen and the model name put into it.
- The clipboard copy (src/components/GpuTile.jsx:164-184) and the toast timer (src/App.jsx:37-40) are left out.
- JSX markup and CSS class strings are left out, except the temperature class names, the type icons, the example panel's visibility and the badge labels.
- ServicesList.jsx, ServiceCard.jsx, GpuCard.jsx and GpuOverview.jsx are not part of this model. They only render, and their helpers repeat GpuTile's with small variations.
