# BioreactorUI console: setpoint reconciliation and telemetry, in Dafny

This project models the logic of the `App` component of BioreactorUI. `App` is
the operator console of a bioreactor controller. The controller talks MQTT under
the topic root `bio/v1`. The model covers:

- **the message handler**: it removes the root from the topic and switches on
  `status`, `telemetry`, `set/temp`, `set/ph` and `set/rpm`;
- **`syncInitial`**: every setpoint echo from the device sets the channel's remote
  setpoint. Only the first echo of a channel also sets the slider's pending value;
- **the slider** (`handleSliderChange`);
- **`commitChange`**: a guarded commit that publishes a retained qos-1 command and
  optimistically takes the pending value as the remote setpoint;
- **the trend buffer**: `[...prev, sample].slice(-100)`;
- **the control card's `isDirty` flag and commit button**.

The files:

- `wrappers.dfy`: the `Option` type.
- `topics.dfy`: the topic root, and JavaScript's `replace` with a string pattern.
  It removes the first occurrence of the root wherever it stands.
- `telemetry.dfy`: telemetry records, `slice(-k)`, the bounded append, the
  `{time, ...data}` sample and the `{...prev, ...data, deviceState: 'Online'}` merge.
- `engine.dfy`: the console state as a value (`Console`) and each handler as a
  pure transition. It also has the invariant `Inv`, the button and dirtiness
  predicates, the per-channel phase (bootstrap / synced / dirty), and `Run` over
  a stream of events.
- `properties.dfy`: lemmas about single handlers, and lemmas over any stream of
  events.
- `streams.dfy`: the trend buffer after a stream of telemetry messages.
- `scenarios.dfy`: four end-to-end runs from a fresh start.
- `app.dfy`: class `App`, whose fields are the component's state. Each handler is
  a method that updates the fields in place, in the source's order. Each method
  promises that the new state is the `Engine` transition of the old one.

Setpoints are `real`. The parsers (`parseFloat`, `parseInt`, `JSON.parse`) are
not modelled. Their results arrive with the payload (`Payload`), and the wall
clock arrives as a `Clock` parameter. Each handler is one atomic transition,
applied in event order.

The code differs from the console's design description on these points. The
model follows the code:

- The time of the last message is set for every message: unknown topics and
  unparseable telemetry too, not only for successful ones.
- A non-numeric `set/*` payload is not dropped. The parser's result goes straight
  into `syncInitial`.
- Every property of a telemetry record is merged into the readings, including
  unknown ones. In the trend sample a `time` property of the record overrides the
  arrival time.
- The root is removed wherever it first occurs in the topic, not only as a
  prefix (`Topics.StripRootInside`).
- A commit that is not allowed returns nothing. There is no typed failure: the
  call just has no effect.
- The status only takes the values 'Disconnected', 'Connected' and 'Offline'.
  There is no 'Connecting'.

## Model

| member | source | states |
|---|---|---|
| Topics.IndexOf | src/App.jsx:212 | the result is the leftmost occurrence of the pattern at or after the start index, or None when there is none |
| Topics.ReplaceFirst | src/App.jsx:212 | `replace` with a string pattern removes exactly the leftmost occurrence and returns the string unchanged when there is none |
| Topics.StripRoot | src/App.jsx:212 | the topic path is the topic with its first `bio/v1/` removed (7 characters shorter), or the topic itself when it does not contain the root |
| Topics.StripRootOfRooted | src/App.jsx:207-212 | every topic delivered under the `bio/v1/#` subscription reaches the switch as the text after `bio/v1/` |
| Topics.StripRootOfUnrooted | src/App.jsx:212 | a topic not containing the root reaches the switch unchanged |
| Topics.StripRootInside | src/App.jsx:212 | the root is removed from the middle of a topic too, not only from its start |
| Telemetry.SliceLast | src/App.jsx:236 | `slice(-k)` keeps min(length, k) elements, namely the last ones, in order |
| Telemetry.AppendBounded | src/App.jsx:234-237 | the buffer update never exceeds the capacity, ends with the new sample, and keeps the newest older samples in order |
| Telemetry.AppendAllKeepsNewest | src/App.jsx:234-237 | from a buffer within capacity, any run of appends leaves the last `cap` elements of the old contents followed by the arrivals |
| Telemetry.AppendAllFromEmpty | src/App.jsx:234-237 | from an empty buffer, n appends leave the last min(n, cap) samples in arrival order |
| Telemetry.SampleOf | src/App.jsx:235 | the sample has every property of the record, plus `time`, which is the arrival time unless the record has its own |
| Telemetry.MergeTelemetry | src/App.jsx:233 | every record property overwrites the reading of that name, other readings are kept, and `deviceState` is 'Online' whatever the record says |
| Engine.Initial | src/App.jsx:139-169 | the mount state satisfies the invariant: status 'Disconnected', no client, empty buffer and nothing published |
| Engine.RouteOf | src/App.jsx:226-249 | the switch takes the 'status' case exactly for `status`, the 'telemetry' case exactly for `telemetry`, and a channel's echo case exactly for `set/` followed by that channel's name |
| Engine.EchoValue | src/App.jsx:240-248 | temperature and pH echoes carry `parseFloat`'s value; an agitation echo carries `parseInt`'s, so it is always a whole number |
| Engine.SyncInitial | src/App.jsx:218-224 | the echo transition preserves the invariant (its meaning is stated by the echo lemmas below) |
| Engine.AcceptTelemetry | src/App.jsx:232-237 | accepting a record preserves the invariant, including the buffer bound |
| Engine.OnMessage | src/App.jsx:210-250 | every message transition preserves the invariant |
| Engine.SliderChange | src/App.jsx:260-262 | the slider transition preserves the invariant |
| Engine.Commit | src/App.jsx:264-278 | the commit transition preserves the invariant |
| Engine.CommandTopic | src/App.jsx:271 | a command topic lies under the root, and the path the console's own switch sees for it is `set/<type>` |
| Engine.IsDirty | src/App.jsx:33 | a channel is clean exactly when its pending value equals its remote setpoint |
| Engine.ButtonEnabled | src/App.jsx:70 | the button's `disabled` expression leaves it enabled exactly when the channel is dirty and the status is 'Connected' |
| Engine.AttachClient | src/App.jsx:253 | creating the client preserves the invariant |
| Engine.OnConnect | src/App.jsx:205-208 | the 'connect' transition preserves the invariant |
| Engine.OnOffline | src/App.jsx:252 | the 'offline' transition preserves the invariant |
| Engine.Step | src/App.jsx:205-278 | every event preserves the invariant |
| Engine.Run | src/App.jsx:205-278 | after any stream of events, all three channels are present and the trend buffer holds at most 100 samples |
| Properties.RouteEchoIff | src/App.jsx:240-248 | a path goes to a channel's echo case if and only if it is `set/` followed by that channel's name |
| Properties.CommandTopicRoutesBack | src/App.jsx:264-274 | a command published on `bio/v1/set/<type>` comes back through the console's own subscription as an echo of the same channel |
| Properties.InitialState | src/App.jsx:144-169 | at mount every channel waits for its first echo and no commit button is enabled |
| Properties.EchoMessage | src/App.jsx:210-248 | a message on `bio/v1/set/<channel>` records its time and applies `syncInitial` with parseFloat (temp, ph) or parseInt (rpm) |
| Properties.EchoSetsRemote | src/App.jsx:219-222 | every echo, first or not, sets the remote setpoint to the echoed value and leaves the flag set |
| Properties.FirstEchoAdopts | src/App.jsx:220-222 | the first echo also sets the pending value, so the channel goes from bootstrap to synced |
| Properties.LaterEchoKeepsPending | src/App.jsx:219-220 | a later echo leaves pending values and flags unchanged; the channel is synced afterwards iff the echo equals the pending value |
| Properties.EchoLeavesOthers | src/App.jsx:218-224 | an echo changes nothing of any other channel and nothing outside the setpoint records and flags |
| Properties.SliderOnlyMovesPending | src/App.jsx:260-262 | a slider move sets only that channel's pending value; the channel is dirty iff the value differs from the remote setpoint |
| Properties.CommitWhenNotConnected | src/App.jsx:265 | with no client or a status other than 'Connected', a commit publishes nothing and changes nothing |
| Properties.CommitWhenConnected | src/App.jsx:267-277 | a connected commit publishes exactly one qos-1 retained command on `bio/v1/set/<type>` carrying the pending value, sets remote to pending (not dirty), and changes nothing else |
| Properties.CommitIgnoresDirtiness | src/App.jsx:264-278 | a connected commit of a synced channel still publishes, although its button is disabled |
| Properties.EnabledButtonCommits | src/App.jsx:264-278 | pressing an enabled button (client present) publishes once and leaves the button disabled |
| Properties.TelemetryMessage | src/App.jsx:230-237 | a telemetry message whose payload parses records its time and accepts the parsed record |
| Properties.TelemetryReadings | src/App.jsx:233 | accepting a record overwrites each reading the record names, keeps the value of every other reading, sets 'Online', and changes nothing but the readings and the buffer |
| Properties.TelemetryBuffer | src/App.jsx:234-237 | accepting a record appends `{time, ...data}` at the end of the buffer, dropping its oldest sample only when it was full |
| Properties.TelemetryMalformed | src/App.jsx:231-238 | unparseable telemetry changes nothing but the time of the last message |
| Properties.StatusMessage | src/App.jsx:227-228 | a status message sets the device state to the payload text verbatim |
| Properties.UnknownTopic | src/App.jsx:210-250 | a topic matching no case changes nothing but the time of the last message |
| Properties.MessageFrame | src/App.jsx:210-250 | no message changes the client, the status or the published commands, or, after a channel's first echo, its pending value or flag |
| Properties.StepKeepsPending | src/App.jsx:205-278 | every event but a move of the channel's own slider keeps its first-echo flag and its pending value once that flag is set |
| Properties.FlagsNeverReset | src/App.jsx:220-222 | over any event stream, a channel's first-echo flag never returns to false, so no channel goes back to bootstrap |
| Properties.NoSilentOverwrite | src/App.jsx:218-224 | after its first echo, a channel's pending value changes only through its own slider, over any event stream |
| Properties.PublishedOnlyGrows | src/App.jsx:270-274 | published commands are only ever appended |
| Properties.NothingPublishedOffline | src/App.jsx:264-265 | while not connected and without a 'connect' event, nothing is published, whatever else happens |
| Streams.RunSnoc | src/App.jsx:210-278 | processing a stream and then one event equals processing the extended stream |
| Streams.TelemetryStep | src/App.jsx:234-237 | one valid telemetry message appends its sample to the buffer |
| Streams.TelemetryStream | src/App.jsx:234-237 | after a stream of valid telemetry messages, the buffer is the old buffer with their samples appended in arrival order |
| Streams.TelemetryStreamFromEmpty | src/App.jsx:234-237 | from an empty buffer, n valid telemetry messages leave the samples of the last min(n, 100) of them |
| Scenarios.EchoSlideCommit | src/App.jsx:205-278 | the sequence echo 36.5, slide to 38, commit goes synced, dirty (button enabled), then synced, with one publish of 38 on `bio/v1/set/temp` |
| Scenarios.PartialTelemetry | src/App.jsx:230-237 | `{"temp":37.2,"ph":6.8}` into an empty buffer sets both readings and 'Online'; the one new sample has no `rpm` key |
| Scenarios.CommitWhileDisconnected | src/App.jsx:264-265 | a commit before connecting, or after going offline, publishes nothing and changes nothing |
| Scenarios.HundredAndFiveSamples | src/App.jsx:234-237 | 105 telemetry messages leave exactly the samples of messages 6 to 105 |
| Dashboard.App.constructor | src/App.jsx:139-169 | the component mounts in the initial state |
| Dashboard.App.AttachClient | src/App.jsx:253 | `setClient(c)`: the new state is the Engine transition, and the invariant is kept |
| Dashboard.App.OnConnect | src/App.jsx:205-208 | the status becomes 'Connected', as the Engine transition says |
| Dashboard.App.OnOffline | src/App.jsx:252 | the status becomes 'Offline', as the Engine transition says |
| Dashboard.App.SyncInitial | src/App.jsx:218-224 | the in-place echo update (the flag is set in place) equals the Engine echo transition |
| Dashboard.App.AcceptTelemetry | src/App.jsx:232-237 | the in-place telemetry update equals the Engine transition and keeps the buffer bound |
| Dashboard.App.OnMessage | src/App.jsx:210-250 | the handler's string switch leaves exactly the state of the Engine message transition |
| Dashboard.App.HandleSliderChange | src/App.jsx:260-262 | the in-place slider update equals the Engine transition |
| Dashboard.App.CommitChange | src/App.jsx:264-278 | the guarded publish and optimistic update equal the Engine commit transition |
| Dashboard.App.CommitEnabled | src/App.jsx:33-70 | the button is enabled exactly when the channel is dirty and the status is 'Connected' |

## Left out

- Rendering: JSX markup, styling, icons, the recharts trend chart and `toFixed` display formatting (src/App.jsx:18-136, 280-371). These are presentation only.
- The dynamic loading of the MQTT library script (src/App.jsx:176-186). This is DOM I/O.
- The MQTT client itself: connect options, the random client id, the wildcard subscription and `c.end()` on teardown. The model covers only the client's existence (`hasClient`), its 'connect' and 'offline' events, and the commands handed to `publish` (the `published` queue). Transport errors and reconnection belong to the client.
- The parsers and number formatting: `parseFloat`, `parseInt`, `JSON.parse` and `toString`. Their results are inputs (`Payload`), and a command's payload is the number itself. NaN is not modelled. In the source, a non-numeric setpoint echo stores NaN, and `!==` then keeps the channel dirty until a commit of a numeric pending value, or a later echo equal to it.
- JSON values: numbers and strings are told apart, and every other JSON value is `OtherJson`. A payload that parses to a non-object is represented by the record its spread produces.
- The clock: `new Date()` and `toLocaleTimeString()` are the `Clock` parameter. `lastUpdate` is only written.
- `console.error` on bad telemetry.
- React's asynchronous state batching and render-time closures. Each handler is one atomic transition on the current state. `commitChange` reads the current pending value and status.
- Client and status are kept independent. The source never sets the status to 'Connected' without a client, because the 'connect' handler is registered on the client. The model does not enforce this, so its commit guard checks both conditions independently.
