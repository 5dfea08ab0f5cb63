# Interactly client core in Dafny

A model of the `Interactly` browser client (`index.js`). The client streams
microphone audio to a voice-assistant server over a WebSocket and plays back
the audio the server sends. Five sequential pieces are modelled and proved.

- **Event registry** (`registry.dfy`). The fixed table that maps event names
  to ordered callback lists, with `on`, `off` and `emit`. Callbacks are
  opaque ids compared by reference. The effect of `emit` is the sequence of
  `(handler, payload)` calls it makes.
- **Call-update classifier** (`call_updates.dfy`). `handleCallUpdates` maps a
  parsed `call-updates` envelope to at most one outgoing event. It follows
  JavaScript destructuring: a default replaces `undefined` only, and a
  `null` payload throws.
- **Inbound dispatcher** (`dispatcher.dfy`). `handleMessage` maps a frame
  (parse failed, or a parsed JSON value) to one action: a call update,
  play, stop, close, unknown, or a caught error.
- **Reconnection controller** (`reconnection.dfy`, `reconnection_props.dfy`).
  - The configuration and the state fields kept by the client.
  - `reconnect`, `clearReconnection`, `manualReconnect`, and the counter and
    flag updates made by `connect` and `onopen`.
  - Each transition is a pure step function. The class `Reconnector` is
    proved against those functions.
- **Audio** (`downsampler.dfy`, `pcm.dfy`).
  - The downsampling worker, with its `init` message.
  - The playback pipeline, including the `base64ToBinary` and
    `int16ToFloat32` loops:
    1. binary string to bytes;
    2. the optional 44-byte WAV header strip;
    3. the little-endian 16-bit view;
    4. scaling to floats.

`json.dfy` holds parsed JSON values, JavaScript truthiness and property
reads. `wrappers.dfy` holds `Option` and `Result`.

Several inputs come from outside the model and are passed in as parameters:

| input | stands for |
|---|---|
| `now` | clock readings (`Date.now()`, `new Date()`) |
| `ok` / `connected` | the outcome of `connect()` |
| `binary` | what `atob` returns (`None` when it throws) |
| `throwing` | which handlers throw |
| `openThrows` | whether some `open` listener throws |
| `hasSocket` | whether a socket exists |

Rates are positive integers. Audio samples are `real`, so the float
arithmetic is exact.

Five behaviours of the code are easy to misread as something else. The
model reproduces each as written.

- **First back-off delay.** `reconnectAttempts` starts at 1 (index.js:59),
  and `reconnect` increments it before computing the delay (index.js:347).
  A client whose socket never opened therefore first waits
  `initialDelay * factor`, not `initialDelay`, and gets only
  `maxAttempts - 1` attempts. Such a client reaches `reconnect` only
  through a direct call from the host, because the automatic calls in the
  socket's close and error handlers are commented out (index.js:418, 435).
  See `FreshClientSkipsFirstAttempt`.
- **`isReconnecting` after giving up.** It stays `true` after
  `reconnectFailed` (index.js:337-344). See `FailRunTrace`.
- **Throwing handlers.** `emit` does not isolate them: `forEach` propagates
  the throw, so the remaining handlers are skipped. Inside `handleMessage`
  the throw is caught and one `error` follows. See `FrameEmissions`. In
  `convertAndPlay` a throwing `audioEnd` listener stops the new clip from
  playing, and a throwing `audioPlay` listener leaves it playing with no
  `onended` handler. See `ConvertAndPlay`. A throwing `open` listener skips
  the counter reset. See `OpenStep`.
- **Manual reconnects obey `enabled`.** `manualReconnect` goes through the
  `enabled` check of `reconnect` (index.js:333), so with reconnection
  disabled it only resets the counter and raises the flag. See `ManualStep`.
- **Pending timers.** `clearReconnection` cancels only the timer that
  `reconnectTimer` names. A second `reconnect()` while a timer is pending
  overwrites that handle, so the earlier timer survives. See
  `OverwrittenTimerSurvivesClear`.

## Model

| member | source | states |
|---|---|---|
| `EventRegistry.InitialTable` | index.js:65-83 | The constructor's table has exactly the seventeen known names, each with no listener. |
| `EventRegistry.Subscribed` | index.js:135-142 | `on` with a known name appends `cb` at the end of that list and leaves every other list unchanged. With an unknown name it changes nothing. |
| `EventRegistry.Without` | index.js:146-148 | The filtered list no longer holds `cb`. Every other handler keeps its number of occurrences. |
| `EventRegistry.Unsubscribed` | index.js:144-151 | `off` removes `cb` from the named list only. The key set is unchanged. |
| `EventRegistry.WithoutAppend` | index.js:146-148 | Filtering distributes over concatenation, so the relative order of the kept handlers is preserved. |
| `EventRegistry.WithoutAbsent` | index.js:146-148 | Filtering out a callback that is not registered leaves the list as it was. |
| `EventRegistry.UnsubscribeIdempotent` | index.js:144-151 | `off` twice with the same callback equals `off` once. |
| `EventRegistry.OffUndoesOn` | index.js:135-151 | `off` right after `on` of a new callback restores the table. |
| `EventRegistry.DispatchWithoutThrowsIsComplete` | index.js:153-157 | When no handler throws, `emit` calls every handler of the list exactly once, in order. |
| `EventRegistry.Registry.constructor` | index.js:65-83 | The registry starts with the initial table. |
| `EventRegistry.Registry.On` | index.js:135-142 | The new table is `Subscribed` of the old one. An unknown name only warns. A name inherited from `Object.prototype` throws. |
| `EventRegistry.Registry.Off` | index.js:144-151 | The new table is `Unsubscribed` of the old one. An unknown name is ignored. An inherited name throws. |
| `EventRegistry.Registry.Emit` | index.js:153-157 | The calls made have each listener with `data`, in list order, up to and including the first throwing handler. The outcome is a throw exactly when some called handler threw, which is exactly when the list holds a throwing handler (`ListenerThrows`). An unknown name calls nothing. |
| `EventRegistry.DispatchThrowsIffListThrows` | index.js:153-157 | A dispatch that stops at the first throwing handler calls a throwing handler exactly when the list holds one. |
| `CallUpdates.HandleCallUpdates` | index.js:248-301 | A falsy `event` gives nothing. Otherwise a TypeError occurs exactly when the payload or its `recording` is `null`. The event kind always matches `type`. A call start needs `in-progress`, a call end needs `completed`. The speaker is `Assistant` exactly when the source is `agent`, and `User` otherwise. Conversely, every `message`, `assistant-config`, `recording` or `summary` envelope that destructures emits. |
| `CallUpdates.MessageClassification` | index.js:279-283 | A `message` envelope gives the speaker from `source`, the `text` (default `''`) and the payload's `timestamp`, or the clock reading when it has none. |
| `CallUpdates.PayloadEventsCarryPayload` | index.js:285-295 | `assistant-config` and `summary` forward the whole payload, which is `{}` when the envelope has none. |
| `CallUpdates.RecordingClassification` | index.js:289-291 | `recording` gives `payload.recording.s3Link`, or `''` when the recording or the link is missing. |
| `CallUpdates.EncodeRoundTrip` | index.js:248-301 | Every event the sub-protocol can emit is produced, unchanged, from its envelope. |
| `CallUpdates.StatusClassification` | index.js:264-277 | `status` emits something exactly for `in-progress` (call-start with `userNumber`, default `''`) and `completed` (call-end). `trying` and unknown statuses give nothing. |
| `CallUpdates.UnknownTypeIgnored` | index.js:297-298 | Any `type` outside the five known ones emits nothing. |
| `Dispatcher.FromOutcome` | index.js:306 | A call-update outcome emits its event name, nothing, or one caught `error`. |
| `Dispatcher.HandleMessage` | index.js:302-330 | Parse failure, `null` and a missing `data.data` each give one error. A `call-updates` envelope goes only to the classifier. Otherwise `type` selects play, stop or close, and any other type gives `unknown(data)`. The frame's own emissions, before any handler runs, number at most one; what a throwing handler adds is stated by `FrameEmissions`. |
| `Dispatcher.MalformedFrameEmitsOneError` | index.js:327-329 | A frame that does not parse emits exactly `['error']`. |
| `Dispatcher.CallUpdateWinsOverType` | index.js:305-308 | A `call-updates` envelope never plays, stops or closes, whatever its `type`. |
| `Dispatcher.OtherEventIsUnknown` | index.js:323-325 | Every non-null frame whose `event` is not `call-updates` and whose `type` is not one of the three commands is `unknown(data)`. The misspelt `call-update` is one case. |
| `Dispatcher.FrameEmissions` | index.js:303-329 | The emitted names begin with the frame's own emission. A single `error` follows exactly when a listener of a non-error emission throws and the catch at index.js:327 takes over. Never more than two names. |
| `Dispatcher.ThrowingUnknownListenerAddsError` | index.js:323-328 | An unknown frame whose `unknown` listener throws emits `unknown`, then `error`. |
| `Dispatcher.UnheardCallUpdates` | index.js:289-295 | Of the call-update events, exactly `recording` and `summary` are missing from the constructor's table. In every table the registry keeps they have no listener, so such a frame emits just that name and no `error`. |
| `Reconnection.ConfigFrom` | index.js:50-56 | Each absent option takes its default: enabled, 10 attempts, 1000 ms, 30000 ms, factor 2. Each supplied option is kept as given; `enabled` is off only when it is given as `false`. |
| `Reconnection.Delay` | index.js:349-353 | The delay is at most `maxDelay`, at most `initialDelay * factor^(attempt-1)`, and equal to one of them: their minimum. |
| `Reconnection.ReconnectStep` | index.js:332-363 | Disabled or flag down: no change. At the cap: one `reconnectFailed{attempts}`, the flag drops, no timer. Otherwise the counter rises by exactly 1 and one timer with `Delay` is scheduled. |
| `Reconnection.ConnectStep` | index.js:398-399 | A successful `connect()` raises the flag. A failed one emits `error` and leaves the state alone. |
| `Reconnection.Fired` | index.js:361-363 | A firing timer leaves one fewer pending. The handle stays live exactly when it named some other timer that is still pending. Nothing else changes. |
| `Reconnection.FireStep` | index.js:361-377 | Success resets the counter to 0 and clears `isReconnecting`. Failure emits `reconnectError{attempt}` and runs `reconnect()` again. With no timer pending there is no change. |
| `Reconnection.ClearStep` | index.js:380-387 | Both flags drop, the counter is kept, and the timer the handle names is cancelled. |
| `Reconnection.ManualStep` | index.js:506-510 | Disabled: only the flag and counter update, and nothing is scheduled. Enabled with `maxAttempts >= 1`: attempt 1 is scheduled with `Delay(1)`, the flags are raised, and a new live timer is added. |
| `Reconnection.OpenStep` | index.js:401-403 | `onopen` resets the counter to 0 and nothing else. A throwing `open` listener runs first and skips the reset, so the state is unchanged. |
| `Reconnection.Reconnector.constructor` | index.js:59-62 | The counter starts at 1, both flags are false and no timer is pending. |
| `Reconnection.Reconnector.Reconnect` | index.js:332-363 | The new state and the emissions are those of `ReconnectStep`. |
| `Reconnection.Reconnector.TimerFired` | index.js:361-377 | The new state and the emissions are those of `FireStep`, with capture resuming after a successful reconnect. |
| `Reconnection.Reconnector.ClearReconnection` | index.js:380-387 | The new state is `ClearStep` of the old one. |
| `Reconnection.Reconnector.ManualReconnect` | index.js:506-510 | The new state and the emissions are those of `ManualStep`. |
| `Reconnection.Reconnector.Connect` | index.js:398-399 | The new state and the emissions are those of `ConnectStep`. |
| `Reconnection.Reconnector.SocketOpened` | index.js:401-403 | The new state is `OpenStep` of the old one. |
| `ReconnectionProperties.FailRunTrace` | index.js:374-376 | Repeated connect failures run the counter up to `maxAttempts`, then emit `reconnectFailed`. The flag drops and `isReconnecting` stays true. |
| `ReconnectionProperties.FailTailShape` | index.js:337-359 | The failures from attempt `a` schedule attempts `a+1..maxAttempts` with their delays. They end in exactly one `reconnectFailed{maxAttempts}`. |
| `ReconnectionProperties.ManualReconnectExhausts` | index.js:506-510 | After `manualReconnect`, failures give exactly `maxAttempts` `reconnecting` events numbered 1..maxAttempts. Then exactly one `reconnectFailed` follows, with nothing left pending from that run. |
| `ReconnectionProperties.DelayStep` | index.js:349-353 | With `factor >= 1`, the delay for the next attempt is at least the delay for this one. |
| `ReconnectionProperties.DelayNonDecreasing` | index.js:349-353 | With `factor >= 1` the back-off delay never shrinks as the attempt number grows. |
| `ReconnectionProperties.ManualReconnectDelaysGrow` | index.js:349-359 | The delays of the run after `manualReconnect` are non-decreasing. |
| `ReconnectionProperties.ExamplePolicySchedule` | index.js:332-376 | Policy 3 × 100 ms doubling, capped at 1000 ms, schedules 100, 200 and 400 ms, then `reconnectFailed{attempts: 3}`. |
| `ReconnectionProperties.FreshClientSkipsFirstAttempt` | index.js:59 | A never-opened client first schedules attempt 2 and gets only `maxAttempts - 1` attempts. |
| `ReconnectionProperties.OpenedClientStartsAtOne` | index.js:401-403 | After `onopen` the next attempt is number 1. If an `open` listener threw, the next attempt is the one that would have come without the open. |
| `ReconnectionProperties.ClearIdempotent` | index.js:380-387 | `clearReconnection` twice equals once. |
| `ReconnectionProperties.ClearBlocksReconnect` | index.js:333-335 | After a clear, `reconnect` is a no-op and a surviving timer's failure schedules nothing. `connect` or `manualReconnect` raises the flag again. |
| `ReconnectionProperties.ClearCancelsLatestTimer` | index.js:383-386 | When at most the latest timer is pending, nothing fires after the clear. |
| `ReconnectionProperties.OverwrittenTimerSurvivesClear` | index.js:362 | After two `reconnect()` calls, a clear cancels only the second timer. The first still fires and raises the flag. |
| `ReconnectionProperties.RecordingReconnectLoops` | index.js:371-376 | As written, each successful reconnect while recording emits `reconnected`, `reconnectError{attempt: 0}` and a new attempt 1. The number of pending timers never drops. |
| `ReconnectionProperties.RecordingReconnectSettles` | index.js:367-373 | Corrected: a successful reconnect while recording resumes capture, schedules nothing and consumes the timer. |
| `Downsampler.Clamp16` | index.js:120 | The result lies in [-32768, 32767], equals the input inside that range, and saturates outside it. |
| `Downsampler.ReadIndexInRange` | index.js:117-119 | Every read index `floor(i * ratio)` with `i < round(N / ratio)` lies in `[0, N)`. |
| `Downsampler.OutputLengthSpansInput` | index.js:113-114 | The output length times the ratio is within half a ratio of the input length. |
| `Downsampler.SampleAt` | index.js:118-120 | Every output sample lies in the 16-bit range. |
| `Downsampler.SameRateKeepsEverySample` | index.js:112-124 | At equal rates every input sample is kept, only scaled and clamped. |
| `Downsampler.Worker.constructor` | index.js:98-99 | The worker starts at 44100 Hz in and 8000 Hz out. |
| `Downsampler.Worker.Downsample` | index.js:112-124 | The output is `round(N / ratio)` samples long. Sample `i` is the clamped, rounded `32767 * audio[floor(i * ratio)]`, always within [-32768, 32767]. |
| `Downsampler.Worker.OnMessage` | index.js:101-110 | `init` replaces the source rate and posts nothing. Any other message keeps the rate and posts the downsampled block. |
| `Pcm.Latin1Bytes` | index.js:163-165 | One byte per code unit, its low eight bits. |
| `Pcm.Latin1String` | index.js:161 | The binary string has one code unit per byte, and that unit equals the byte. |
| `Pcm.Latin1RoundTrip` | index.js:160-167 | Every byte string survives the trip through a binary string. |
| `Pcm.BinaryToBytes` | index.js:160-167 | The filled array holds exactly `Latin1Bytes` of the binary string. |
| `Pcm.StripHeader` | index.js:208-210 | WAV drops exactly the first 44 bytes, giving an empty result for a shorter input. Any other type keeps the bytes. The result is always a tail of the input. |
| `Pcm.SampleOfBytes` | index.js:169-171 | Encoding a sample as two bytes, low first, and reading it back gives the sample. |
| `Pcm.BytesOfSample` | index.js:169-171 | Reading two bytes as a sample and encoding it back gives the bytes. |
| `Pcm.Int16View` | index.js:169-171 | The view has half as many samples as bytes. Sample `i` is the signed little-endian pair at bytes `2i` and `2i+1`. |
| `Pcm.ViewOfBytes` | index.js:169-171 | The view of a sample buffer's bytes is the buffer. |
| `Pcm.BytesOfView` | index.js:169-171 | The view loses nothing: its bytes are the bytes it was built from. |
| `Pcm.Normalize` | index.js:176 | The float lies in [-1, 1) and has the sign of the sample. |
| `Pcm.NormalizeInjective` | index.js:176 | Distinct samples give distinct floats. |
| `Pcm.Int16ToFloat32` | index.js:173-179 | The output has one float per sample, each `Normalize` of it, all in [-1, 1). |
| `Pcm.PlaybackSamples` | index.js:198-220 | There are four errors. No audio: exactly when the content is falsy. Invalid base64: when `atob` fails. Odd byte length: when the kept byte count is odd. Empty clip: when no bytes are kept, which `createBuffer` rejects. An accepted clip is non-empty, and its samples are exactly the kept bytes, reinterpreted. |
| `Pcm.ConvertAndPlay` | index.js:190-244 | `audioEnd` always comes first, from stopping the current clip. If an `audioEnd` listener throws, only the caught `error` follows and nothing plays. Otherwise either `audioPlay` with the normalized samples, or `error` with the reason. After `audioPlay`, the `onended` handler is installed exactly when no `audioPlay` listener throws; a throwing one adds the caught `error` while the clip keeps playing. The sample rate is taken to be valid: with a missing or invalid `sampleRate`, `createBuffer` throws and `error` is emitted instead of `audioPlay`, a case this function does not cover. |
| `Pcm.WavClipPlaysItsSamples` | index.js:207-238 | A WAV clip of any 44-byte header followed by at least one sample plays exactly those samples, emits `audioEnd` then `audioPlay`, and installs `onended`, when no `audioEnd` or `audioPlay` listener throws and the frame's `sampleRate` is valid. |

## Findings

| source | as written | input that shows it | evidently intended | confidence | as-written member | corrected member |
|---|---|---|---|---|---|---|
| index.js:371-373 | After a successful reconnect while recording, the code calls `this.startStreaming()`. The class defines no such method. The TypeError is caught at index.js:374, which emits `reconnectError{attempt: 0}` and calls `reconnect()` again. | Any successful timer-driven reconnect with `isRecording` true. Every success then schedules attempt 1 again, forever. | Resume capture once and stop reconnecting. | not executed | `ReconnectionProperties.RecordingReconnectLoops` | `ReconnectionProperties.RecordingReconnectSettles` |

## Left out

- Network and transport I/O: `Client.fetchSession` (the HTTP call), WebSocket creation and callbacks, the 100 ms `startCall` send, and `ws.send` of frames and `playDone`. Only the flag and counter updates that `connect` makes are modelled.
- Automatic reconnect on socket close and on a `connect` failure: the code has it commented out (index.js:418, 435).
- The browser audio graph: `getUserMedia`, `AudioContext`, `ScriptProcessor`, `start`/`stop`, Worker and Blob creation, `createBuffer`, and `AudioBufferSourceNode` playback with its `onended` duration. The zero-length buffer `createBuffer` rejects is modelled, as `EmptyClip`; an out-of-range `Number(sampleRate)` is not.
- `atob` is a foreign call. Its result is an input.
- Floating-point rounding: the Float64 ratio, index and scaling arithmetic of `downsample` (index.js:113-119) and the Float32 stores of `int16ToFloat32`. Samples are `real`. The `int16ToFloat32` quotients are exact in Float32 anyway, since 32768 is a power of two.
- `client.js`, an alternative HTTP client, and `test.js`, example wiring. Neither is part of this model.
- Timers are counted, not timed. A timer firing and the `connect()` it awaits are one step, so the window in which `connect()` is in flight is not modelled.
- The async/Promise structure, including the unhandled rejection of `convertAndPlay` after its `error`. Steps are modelled sequentially.
- Handler reentrancy. A handler calling `on`/`off` during `emit` is not modelled; `emit` reads the list once.
- `Downsampler.Worker.OnMessage`: requires a positive rate for `init`. The only `init` the client sends carries the audio context's rate; an arbitrary message could carry any value.
- `Pcm.ConvertAndPlay`: assumes a valid `sampleRate`. `Number(sampleRate)` of a missing or out-of-range rate makes `createBuffer` (index.js:216-220) throw, and the catch emits `error` after `audioEnd`.
- `Pcm.Int16View`: assumes a little-endian host. `Int16Array` uses platform byte order.
- `Reconnection.ReconnectStep`: assumes the `reconnecting` and `reconnectFailed` listeners do not throw. A throwing `reconnecting` listener (index.js:355) rejects `reconnect()` after the counter rose but before the timer at index.js:362 is set. A throwing `reconnectFailed` listener (index.js:338) leaves `shouldAttemptReconnect` raised.
- `Reconnection.FireStep`: assumes the `reconnected` and `reconnectError` listeners do not throw. A throwing `reconnected` listener (index.js:369) is caught at index.js:374, which emits `reconnectError` and calls `reconnect()` again. A throwing `reconnectError` listener (index.js:375) rejects before the new `reconnect()`.
- `FrameEmissions`: an `error` listener that throws inside the catch at index.js:328 makes the exception escape `handleMessage`. The model lists the emitted names only and does not record the escape.
- `Reconnection.ConfigFrom`: option values are typed (`bool`, `int`, `real`). A host passing non-numbers or NaN is not modelled.
- `Reconnection.Reconnector.TimerFired`: implements the corrected behaviour (capture resumes). The as-written loop is `FireStep` with `resumable` false; see Findings.
