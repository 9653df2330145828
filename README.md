# Debug port of freedom (src/debug.js), modelled in Dafny

`src/debug.js` is freedom's debug port: a logging gateway that accepts log
calls before its output channel exists. A control message binds the channel
once and signals `'ready'`, which replays every buffered call as an envelope
`{severity, source, quiet: true, request: 'debug', msg}` on the channel.
Received envelopes are printed through a logging provider that is requested
lazily, once; prints wait behind a `'logger'` signal until the provider
arrives.

The model has three modules:

- `Json` (json.dfy): JavaScript values with an `Undefined` marker; the JSON
  library as a `Codec` value holding `parse` (None where it throws) and
  `stringify`; `Wire`, what JSON text does to `undefined`; `JsShaped`, the
  values a JavaScript program can hold; `Lossless`, the round-trip law the
  port relies on, stated for those values; the decoding loop of the print path.
- `Messages` (messages.dfy): severities, payloads, envelopes, console
  targets; the normalisation half of `format` and the decoding half of
  `print` as functions (`Canonical`, `PrintStep`), with the loops that
  compute them.
- `DebugPort` (debug.dfy): the `Debug` class with the source's fields
  (`emitChannel`, `config`, `console`, `logger`), the registered `'ready'`
  and `'logger'` continuations, and append-only logs of what goes out
  (envelopes on the bus, provider requests, provider invocations, direct
  `console.error` calls); `Valid()` is the port's invariant. `NamedLogger`
  is the object that `Debug.getLogger` returns. Three client methods
  (`ScenarioLogBeforeBind`, `ScenarioError`, `ScenarioPrintWaits`) show
  what a caller can conclude from the contracts alone.

The invariant `Debug.Valid()` states the central properties:
- nothing is emitted before the bind;
- after the bind the envelopes on the bus are exactly those of all `format`
  calls, each once, in call order, on the bound channel;
- the provider is requested at most once;
- the provider is never invoked before it is ready.

## Model

| member | source | states |
|---|---|---|
| `Json.TakeDefined` | src/debug.js:108-111 | the collected list is a prefix of the slots, holds no undefined, and stops at the end or at the first undefined slot |
| `Json.DecodeArgs` | src/debug.js:104-112 | the print loop yields `Decoded`: a string gives a one-element list, null or undefined throws on `args[i]`, anything else gives its slots up to the first undefined one |
| `Json.WireKeeps` | src/debug.js:81 | a value without undefined inside survives stringify and parse unchanged |
| `Json.DupKeyNotJsShaped` | src/debug.js:81 | an object with two members under one key is not a value a JavaScript program can hold, so the round-trip law says nothing about it |
| `Json.StringKeyFirstNotJsShaped` | src/debug.js:81 | an object that lists a non-index key before an array-index key is not a value a JavaScript program can hold |
| `Json.RoundTrip` | src/debug.js:81-111 | parsing the text of an argument list whose objects are in JavaScript enumeration order gives it back with undefined slots as null; decoding it does not cut it short; a representable list comes back unchanged |
| `Messages.Normalise` | src/debug.js:53-71 | the `alist` loop yields `Canonical`: an argument list is copied in order; a string becomes a one-element list unless the source is truthy and the string parses to an array |
| `Messages.ParsedArrayReplacesText` | src/debug.js:54-59 | a string with a truthy source whose text is a JSON array is logged as that array's elements |
| `Messages.CanonicalIdempotent` | src/debug.js:73 | re-running normalisation on a deferred call's list, as the replay does, returns that list |
| `Messages.PrintOfEmitted` | src/debug.js:76-113 | for a list whose objects are in JavaScript enumeration order, printing an envelope that format emitted delivers the call's severity, source and list (undefined as null), exactly the list when representable |
| `Messages.PrintStepShape` | src/debug.js:103-113 | the print step is suppressed exactly when the console is the port itself, and delivers only under the envelope's severity and source, exactly when parse and decode succeed |
| `DebugPort.EmitAllAt` | src/debug.js:76-82 | the k-th replayed envelope is on the bound channel, quiet, request "debug", with the k-th call's severity, source and encoded list |
| `DebugPort.ReplayReady` | src/debug.js:73 | the 'ready' replay emits one envelope per registered continuation, in registration order |
| `DebugPort.PrintReady` | src/debug.js:102-114 | past the provider gate a print computes `PrintStep` |
| `DebugPort.ReplayPrints` | src/debug.js:95-98 | the 'logger' replay runs each deferred print once, in order |
| `DebugPort.SentMatchesCalls` | src/debug.js:72-82 | before the bind nothing is on the bus; after it the k-th envelope is the k-th format call, on the bound channel |
| `DebugPort.BindOnce` | src/debug.js:36 | once a channel is bound no control message binds again |
| `DebugPort.Debug.constructor` | src/debug.js:10-17 | no channel, config, console or provider; nothing registered, nothing sent |
| `DebugPort.Debug.OnMessage` | src/debug.js:35-42 | binds only from "control" with a truthy channel and no channel yet, then emits every deferred call in order; otherwise changes nothing |
| `DebugPort.Debug.Format` | src/debug.js:52-83 | records the normalised call; defers it behind 'ready' and emits nothing while unbound, emits its envelope on the bound channel otherwise |
| `DebugPort.Debug.Print` | src/debug.js:90-115 | requests the provider only when not requested, defers while not ready with no invocation, once ready invokes per `PrintStep` |
| `DebugPort.Debug.ResolveLogger` | src/debug.js:93-96 | the provider becomes ready, the deferred prints run once each in order and the queue is emptied |
| `DebugPort.Debug.Log` | src/debug.js:121-123 | one format call with severity log, no source, the arguments as list |
| `DebugPort.Debug.Info` | src/debug.js:129-131 | one format call with severity info, no source |
| `DebugPort.Debug.Debug` | src/debug.js:137-139 | one format call with severity debug, no source |
| `DebugPort.Debug.Warn` | src/debug.js:145-147 | one format call with severity warn, no source |
| `DebugPort.Debug.Error` | src/debug.js:153-158 | one format call with severity error, no source, then a direct console.error exactly when the console is set and not marked freedom |
| `DebugPort.NamedLogger.GetLogger` | src/debug.js:167-180 | the logger is tied to the given port and name |
| `DebugPort.NamedLogger.Log` | src/debug.js:168-175 | one format call on the port with severity log and the logger's name as source |
| `DebugPort.NamedLogger.Info` | src/debug.js:168-174 | one format call with severity info and the name as source |
| `DebugPort.NamedLogger.Debug` | src/debug.js:168-173 | one format call with severity debug and the name as source |
| `DebugPort.NamedLogger.Warn` | src/debug.js:168-176 | one format call with severity warn and the name as source |
| `DebugPort.NamedLogger.Error` | src/debug.js:168-177 | one format call with severity error and the name as source; no direct console call |

## Notes

- `error` makes no direct console call before the bind, because `this.console` is only set at src/debug.js:39 and is null until then.
- The 'ready' handlers are registered with `on` (src/debug.js:73) and stay registered. Nothing is emitted twice only because `emit('ready')` runs once, in the bind. The model keeps the handlers registered.
- A string payload is parsed only when the source is truthy (src/debug.js:54), so an empty-string source does not trigger parsing.
- A `Json.JsonValue` object is a sequence of members. `Json.JsShaped` picks out the values a JavaScript program can hold: every object has distinct keys, with the array-index keys first in ascending order, and every number is at most 2^53 in magnitude. `Json.Lossless`, and so `Json.RoundTrip` and `Messages.PrintOfEmitted`, only speak of such values.

## Left out

- The event registry (`util.handleEvents`: on, once, emit) is not part of this model. It is modelled as one list of continuations per event, fired in registration order. That order is an assumption, not a proved property.
- `DebugPort.Debug.OnMessage` and `DebugPort.Debug.Format`: envelopes are emitted on the same event registry the port uses for its own 'ready' and 'logger' events (src/debug.js:76). A control message whose channel is "ready" would make each replayed `format` emit on 'ready' again and re-fire the `on('ready')` handlers without end; a channel "logger" would fire the deferred prints early. The model treats the bound channel as distinct from both event names and emits each deferred call once.
- `DebugPort.Debug.Format` and `DebugPort.Debug.OnMessage`: values that JSON.stringify rejects (a cyclic object, a BigInt) are outside `Json.JsonValue`, so the throw at src/debug.js:81 is not modelled. In the source that throw reaches the caller of `log` after the bind, and before the bind it interrupts `emit('ready')` during `onMessage`, so later deferred calls would not be emitted.
- `DebugPort.Debug.Format`, `DebugPort.Debug.OnMessage` and `DebugPort.SentMatchesCalls`: a call deferred before the bind keeps references to the caller's objects and arrays in `alist` (src/debug.js:73), and is serialised only when the bind replays it (src/debug.js:40, 81). An argument changed between the call and the bind is emitted in its changed state. The model's values are fixed at call time, so it promises the text of the arguments as they were when logged. Calls made after the bind are serialised at once and are not affected.
- `Json.Lossless`: the order among the non-index keys of an object is insertion order in JavaScript. The model takes the member sequence as that order and does not model insertion.
- Listeners outside the port (on 'ready' or on the channel name) and the bus itself are not modelled. An emitted envelope is an entry in `sent`.
- The provider acquisition (`fdom.apis.getCore('core.logger', ...)`) and the `Provider` implementation are not modelled. A request is recorded in `requests`, and `ResolveLogger` stands for the promise resolving. Acquisition failure is not modelled, because the source does not handle it.
- `ResolveLogger` assumes that each replayed print runs on its own. How a print that throws inside `emit('logger')` affects the remaining handlers depends on `handleEvents`, which is not part of this model.
- JSON.parse and JSON.stringify are a `Codec` parameter, not implementations. The round-trip lemmas assume `Lossless`. JavaScript numbers are integers here, so NaN, Infinity and fractions are not modelled; `Json.JsShaped`, and so `Json.Lossless`, admit only integers of magnitude at most 2^53, which a double holds exactly. `Json.JsonValue` holds plain data only: functions, symbols, Dates and other objects with `toJSON`, and Error objects (which stringify as `{}`) are not modelled.
- `Json.DecodeArgs`: an object with numeric-string keys ("0", "1", …) is treated as having no indexed slots, whereas JavaScript would read them. Messages produced by `format` always decode to arrays, because `msg` is the text of an array (src/debug.js:81).
- The control message's channel is a string. Other truthy channel values are not modelled.
- `DebugPort.Debug.OnMessage` requires a configuration on the binding branch. The source would throw at src/debug.js:39 after setting `emitChannel` and `config`. That crash is not modelled.
- `DebugPort.Debug.Error` requires that a console without the `freedom` marker is not the port itself. In that case `console.error` would call `error` again without end.
- The provider's severity methods form a total map. The duck-typed `!this.logger.log` test (src/debug.js:91) reduces to "the provider is ready".
- Each kind of effect has its own log. The relative order of different kinds is not recorded. For example, in `error` the envelope comes before the direct console call.
- The console object is only its identity and its `freedom` flag. The no-op completion callback passed to the provider is not modelled.
- `toString`, `module.exports = Debug.getLogger()` and the global `fdom.debug` singleton are plumbing and are not modelled. The port is passed to `NamedLogger.GetLogger` explicitly.
