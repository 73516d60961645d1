# labox-tv state reconciliation in Dafny

`lib/LaboxTv.js` is a Node.js client for the remote-control protocol of a
set-top box. It speaks to the box over two WebSockets:

- the command socket (port 7682) carries requests and their responses;
- the notification socket (port 7684) carries server pushes.

The client keeps a `playerInfo` snapshot with these fields:

- power and volume;
- mute;
- channel: name, number and category;
- program: name and category.

Each inbound frame runs through three steps:

1. it is decoded into a new snapshot (`getPlayerInfoFromMessage`);
2. the new snapshot is compared field by field with the committed one, and an event is emitted per changed field, then `update` (`sendUpdateNotifications`);
3. the new snapshot is committed.

Outbound frames go out only while the command socket is open.

The model is split into these modules:

- `JsValue` (`js_value.dfy`): parsed JSON frames and the JavaScript values a snapshot leaf can hold. It also covers:
  - when `hasOwnProperty` throws (on `null`, or on an object that owns a `hasOwnProperty` key);
  - when converting a value to a string throws (an object that owns a `toString` key, or an array holding one);
  - strict equality `===`: NaN and objects are never equal to a fresh copy;
  - the `JSON.parse(JSON.stringify(...))` deep copy, which turns NaN into `null`.
- `JsNumbers` (`js_numbers.dfy`): `parseInt` on the string form of a JSON value. That covers:
  - `String(value)`, including the throw above and arrays joined with commas;
  - the JavaScript white-space trim, the sign, and the `0x` prefix;
  - the longest digit prefix, with NaN when there are no digits;
  - decimal rendering of integers, and the proof that `parseInt` reads a rendered integer back.
- `PlayerInfo` (`player_info.dfy`): the snapshot, its initial value, and the decoder `Decode`, with one function per action. A frame that is not JSON, or a decode that throws, gives `None`.
- `DecodeProperties` (`decode_properties.dfy`): what each action does to the snapshot, frame by frame.
- `Notify` (`notify.dfy`): the events and `Diff`, the event sequence of `sendUpdateNotifications`, with its ordering and firing conditions.
- `Reconcile` (`reconcile.dfy`): decode and diff together, namely repeated frames, the standby report and concrete frames.
- `Labox` (`labox.dfy`): the client object `LaboxTv`. It holds:
  - the committed snapshot;
  - the command socket's readiness as a boolean;
  - the log of emitted events and the log of frames sent.

  Its methods cover the message handler, the socket open and close callbacks, and the outbound commands with their exact frames.

A standby report emits more than `power` and `update`. The report has no `LiveSession`, so the decoder also resets channel and program (lines 119 and 139-142). Those two are then announced whenever they were set. `Reconcile.StandbyReport` states this.

## Model

| member | source | states |
|---|---|---|
| `JsValue.FromJson` | lib/LaboxTv.js:121-126 | A JSON leaf copied into the snapshot is never NaN. It is `null` exactly when the JSON is null. Strings and booleans keep their value. |
| `PlayerInfo.Clone` | lib/LaboxTv.js:107 | The copied snapshot has no NaN leaf and keeps power. A snapshot without NaN is copied unchanged. |
| `PlayerInfo.Decode` | lib/LaboxTv.js:105-202 | A frame that is not JSON yields nothing. A status poll is only ever requested from the notification socket, and the copied snapshot is then returned unchanged. The throw conditions of each action are stated by the `DecodeProperties` lemmas below. |
| `JsNumbers.TrimStart` | lib/LaboxTv.js:124 | `parseInt`'s trim removes exactly the maximal prefix of JavaScript white space and leaves a suffix of the input. |
| `JsNumbers.DigitPrefixLength` | lib/LaboxTv.js:147 | The digits `parseInt` reads form the longest prefix whose characters are all digits in the radix. |
| `JsNumbers.ParseIntString` | lib/LaboxTv.js:173 | `parseInt` of a string yields an integer or NaN, nothing else. |
| `JsNumbers.ToJsString` | lib/LaboxTv.js:124 | Converting a JSON value to a string throws if and only if it is an object owning `toString`, or an array with such an element at any depth. |
| `JsNumbers.ParseInt` | lib/LaboxTv.js:147 | `parseInt` of a JSON value throws exactly when converting it to a string does. Otherwise it yields an integer or NaN. |
| `JsNumbers.NatToDecimalIsDigits` | lib/LaboxTv.js:32 | The decimal form of a natural number is a non-empty string of ASCII digits. |
| `JsNumbers.DigitsValueOfNatToDecimal` | lib/LaboxTv.js:123-124 | Reading the decimal digits of `n` in radix 10 gives back `n`. |
| `JsNumbers.ParseIntOfDecimal` | lib/LaboxTv.js:31-33 | `parseInt` of the decimal rendering of any integer, negative ones included, gives that integer. |
| `JsNumbers.ParseIntOfNumber` | lib/LaboxTv.js:146-147 | `parseInt` of an integral JSON number, or of its decimal string, gives that integer. |
| `DecodeProperties.SessionsStatusPower` | lib/LaboxTv.js:116-118 | `GetSessionsStatus` sets power to false exactly for `"En Veille"` and to true for any other application. It leaves power as it was without `CurrentApplication`, and never touches volume or mute. |
| `DecodeProperties.SessionsStatusResets` | lib/LaboxTv.js:119-142 | Without `LiveSession.LiveItem`, both channel and program are reset. With it, a missing `CurrentChannel` resets the channel and a missing `CurrentProgram` resets the program. |
| `DecodeProperties.SessionsStatusLeaves` | lib/LaboxTv.js:120-135 | With a current channel or program, each leaf takes the frame's value. `Id` goes through `parseInt`. A missing leaf falls back to its own default (null, 0, null). |
| `DecodeProperties.ReadChannelLeaves` | lib/LaboxTv.js:121-126 | A channel read from a `CurrentChannel` object takes `Name` and `Category` as they are and `Id` through `parseInt`, each defaulting on its own. |
| `DecodeProperties.SessionsStatusThrows` | lib/LaboxTv.js:116-133 | A status response throws exactly in two cases. Either `Data`, `LiveSession`, `LiveItem`, `CurrentChannel` or `CurrentProgram` is inspected while null, or while it shadows `hasOwnProperty`. Or the channel's `Id` cannot be converted to a string for `parseInt`. |
| `DecodeProperties.GetVolumePartialUpdate` | lib/LaboxTv.js:145-152 | `GetVolume` changes volume only with `CurrentLevel` and mute only with `IsMute`. Power, channel and program are kept. The frame throws exactly on null data, or on a `CurrentLevel` that cannot be converted to a string. |
| `DecodeProperties.VolumeChangedNotification` | lib/LaboxTv.js:171-176 | `VolumeChanged` with `Level` sets the volume from `parseInt` and mute to false. Without `Level` the snapshot is unchanged. It throws exactly on null parameters, or on a `Level` that cannot be converted to a string. |
| `DecodeProperties.MuteNotification` | lib/LaboxTv.js:178-182 | `Mute` with `State` changes mute and nothing else. Without `State` the snapshot is unchanged. |
| `DecodeProperties.InertFramesChangeNothing` | lib/LaboxTv.js:109-196 | These frames return the copied snapshot and request no poll: command frames without `Action` or `Data`; `ButtonEvent`; unknown actions that convert to a string; notification frames without `Notification`; unknown notifications with parameters whose name converts to a string; non-`StatusUpdate` notifications without parameters. A snapshot without NaN comes back equal. |
| `DecodeProperties.UnknownActionIsLogged` | lib/LaboxTv.js:155-157 | A command with an action of no known case throws if and only if the action cannot be converted to a string for the log message. Otherwise it changes nothing. |
| `DecodeProperties.UnknownNotificationIsLogged` | lib/LaboxTv.js:184-186 | A notification with parameters and a name of no known case throws if and only if the name cannot be converted to a string for the log message. Otherwise it changes nothing. |
| `DecodeProperties.StatusPollOnlyFromBareStatusUpdate` | lib/LaboxTv.js:188-193 | A status poll is requested if and only if the frame is a `StatusUpdate` notification without `Params`. That frame leaves the snapshot as it is. |
| `DecodeProperties.ThrowingDependsOnFrameOnly` | lib/LaboxTv.js:199-201 | Whether decoding throws depends on the port and the frame, never on the committed snapshot. |
| `DecodeProperties.DecodeIdempotent` | lib/LaboxTv.js:105-198 | Decoding a frame against the snapshot it produced produces the same result again. |
| `Notify.LeafEventsOrdered` | lib/LaboxTv.js:206-217 | The power, volume and mute events come in that order, each at most once, each carrying the new value. |
| `Notify.FieldEventsOrdered` | lib/LaboxTv.js:206-225 | All field events come in the order power, volume, mute, channel, program, each at most once, each carrying the new value. |
| `Notify.Diff` | lib/LaboxTv.js:204-229 | The emitted events are strictly ordered by kind and each carries the new snapshot's value. When any event is emitted, the last one is `update` with the new snapshot. |
| `Notify.DiffFiresExactlyChangedFields` | lib/LaboxTv.js:206-225 | Each field event fires if and only if its field is `!==` its old value. Channel fires when any of its three leaves differs, program when either of its two leaves does. |
| `Notify.DiffEmptyIffUnchanged` | lib/LaboxTv.js:205-228 | Nothing at all is emitted, `update` included, if and only if no field changed. |
| `Reconcile.DiffSelfEmptyIffScalar` | lib/LaboxTv.js:218 | Comparing a snapshot with an equal one emits nothing if and only if every leaf is `===` to itself, that is, no NaN and no object. |
| `Reconcile.HandlingTwiceIsQuiet` | lib/LaboxTv.js:92-97 | Handling the same frame twice commits the same snapshot twice. With scalar leaves, the second time emits nothing. |
| `Reconcile.ObjectLeafFiresEveryTime` | lib/LaboxTv.js:121-122 | A channel name that is an object is announced again on every repetition of the same frame. |
| `Reconcile.DiffVolumeAndChannel` | lib/LaboxTv.js:210-221 | When exactly volume and channel differ, the events are exactly volume, channel, update. |
| `Reconcile.StandbyReport` | lib/LaboxTv.js:115-143 | For the standby report while the box is on: power goes false and channel and program are reset. The events are power, then channel and program when they were set, then update. |
| `Labox.ButtonEventFrame` | lib/LaboxTv.js:32 | A button frame starts with the fixed prefix and ends with `]}}`. The key code between them reads back through `parseInt` as the same code. |
| `Labox.ButtonEventFrameInjective` | lib/LaboxTv.js:31-33 | Different key codes give different frames. |
| `Labox.MalformedFramesEscapeListener` | lib/LaboxTv.js:94-95 | As written, three frames throw out of the message listener: a non-JSON frame, a volume response with null data, and one whose level cannot be converted to a string. |
| `Labox.LaboxTv.constructor` | lib/LaboxTv.js:27 | The client starts with the initial snapshot, a closed command socket, and no events or frames. |
| `Labox.LaboxTv.GetInfo` | lib/LaboxTv.js:35-37 | `getInfo` returns the committed snapshot and changes nothing. |
| `Labox.LaboxTv.SendCommandToLabox` | lib/LaboxTv.js:39-43 | A command is appended to the sent frames if and only if the command socket is open. Nothing else changes. |
| `Labox.LaboxTv.GetLaboxStatus` | lib/LaboxTv.js:45-47 | The exact status poll frame is sent only while the socket is open. |
| `Labox.LaboxTv.GetLaboxVolume` | lib/LaboxTv.js:49-51 | The exact volume poll frame is sent only while the socket is open. |
| `Labox.LaboxTv.SendButtonEvent` | lib/LaboxTv.js:31-33 | The button frame for the code is sent only while the socket is open. |
| `Labox.LaboxTv.OnSocketOpen` | lib/LaboxTv.js:81-90 | When the command socket opens: `open` is emitted, then the status poll and the volume poll are sent, in that order. The notification socket opening changes nothing. |
| `Labox.LaboxTv.OnSocketClosed` | lib/LaboxTv.js:67-80 | Closing or failing the command socket emits `close`, and later commands are dropped. The notification socket closing changes nothing. |
| `Labox.LaboxTv.SendUpdateNotifications` | lib/LaboxTv.js:204-228 | The step-by-step checks with the `update` flag append exactly `Diff(committed, next)` to the emitted events. |
| `Labox.LaboxTv.HandleMessage` | lib/LaboxTv.js:92-97 | A frame whose decoding throws changes nothing. Any other frame does three things: one status poll goes out if it asked for one and the socket is open; then `Diff(old, decoded)` is emitted, ending with `update` when non-empty; then the decoded snapshot is committed. |

## Left out

- The WebSocket transport is not modelled: socket construction, TLS options, the certificate and keystore reads, and reconnection after close, error or a failed start. Socket readiness is the boolean `commandOpen`.
- Because reconnection is not modelled, the model misses one case. `close` and `error` can both fire for one socket and start two replacements. An older socket opening while `commandWs` already points to a newer one would drop its polls.
- The 60-second keep-alive timer and the ping/pong handlers are left out. They are transport, not state.
- What `log` prints, and its timestamps, are left out. The messages passed to it are built even when logging is off, and building one can throw (lines 156 and 185). That throw is modelled.
- `JSON.parse` and `JSON.stringify` themselves are left out. A frame arrives already parsed, as `Option<Json>`, where `None` is a frame that is not JSON.
- JSON numbers are modelled as integers. Fractions, exponents, the precision of doubles and the exponent notation `String` uses from 1e21 upwards are not modelled. Neither are `parseInt` results beyond integer range, such as `Infinity`.
- Strings are sequences of Unicode characters, not UTF-16 code units.
- Property access on primitives and arrays is left out, except for the case the decoder relies on: `hasOwnProperty` of a named key on a non-object is false.
- `EventEmitter` subscription is left out. Emitted events are appended to a sequence.
- An exception escaping the message listener would end the process. The model treats that frame as committing nothing and emitting nothing (see Findings).
- The channel-change command and the status poll scheduled from a program's end time are not part of `lib/LaboxTv.js`. They are not part of this model.

## Findings

| source | as written | input that shows it | evidently intended | confidence | as-written member | corrected member |
|---|---|---|---|---|---|---|
| lib/LaboxTv.js:94-95 | The decoder catches its own exception and returns `undefined`. The listener then passes that to `sendUpdateNotifications`, whose first read `undefined.power` throws outside any `try`. | A frame that is not JSON, `{"Action":"GetVolume","Data":null}`, or `{"Action":"GetVolume","Data":{"CurrentLevel":{"toString":0}}}` on the command socket | The frame is logged and ignored: no events, no commit | medium, not executed | `Labox.MalformedFramesEscapeListener` | `Labox.LaboxTv.HandleMessage` |
