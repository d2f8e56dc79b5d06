# good-loggly, modelled in Dafny

good-loggly is a reporter for the hapi process monitor `good`. It forwards
each event it receives to Loggly. This project models the reporter in
`lib/index.js`:

- **Construction** (`GoodLoggly(events, config)`). A missing config reads as
  `{}`. Three assertions run in order: no `ops` subscription, a string
  `token`, a string `subdomain`. The Loggly client is then created with
  `json: true`, `useTagHeader: false` and the config's `tags` when that is an
  array, `[]` otherwise. The reporter keeps its own copy of the config.
- **`getMessage`**: the first truthy value of `data.message`, `data.error`
  and `data`, or `''` when `data` is falsy.
- **`_report`**: updates the event in place. It copies truthy `name` and
  `hostname` from the config, replaces `timestamp` by its ISO string and sets
  `msg`. It then makes one `client.log(event, event.tags)` call.

Files:

- `wrappers.dfy`: `Option` and `Result`.
- `js_values.dfy`: JavaScript values (`Value`), truthiness (`Truthy`),
  property reads (`Get`, `Field`) and `||` (`Or`). Also `FirstTruthy`, the
  reference meaning of a falsy-skipping fallback chain.
- `reporter.dfy`: the reporter.
  - `Construct` specifies construction; the class method `GoodLoggly.New`
    builds the objects step by step and is proved against it.
  - `GetMessage` models `getMessage`.
  - `Normalize` specifies `_report`; `GoodLoggly.Report` mutates an `Event`
    object in place and records its call on a `LogglyClient`, and is proved
    against it.
- `scenarios.dfy`: the scenarios of `test/index.js` as lemmas, plus a client
  method that constructs a reporter and reports one event.

Behaviour of `lib/index.js` that the model keeps as written:

- `name` and `hostname` are copied only when they are truthy
  (lib/index.js:66-67), and `data` is used as the message only when it is
  truthy (lib/index.js:58-60).
- An invalid timestamp makes `toISOString` throw a RangeError after `name`
  and `hostname` were written (lib/index.js:66-68). `GoodLoggly.Report`
  returns `false` and makes no call.
- Any string is accepted as `token` and `subdomain`, including `''`
  (lib/index.js:24-25).

`new Date(t).toISOString()` is the parameter `toIso: Value -> Option<string>`
of `Report`. `None` stands for the RangeError. The calendar conversion is not
modelled.

## Model

| member | source | states |
|---|---|---|
| JsValues.FirstTruthy | lib/index.js:59 | The chain's result is one of the candidates or the fallback. It is truthy unless it is the fallback, and it is truthy whenever some candidate is truthy. |
| JsValues.FirstTruthyPicksFirst | lib/index.js:59 | If candidate i is the first truthy one, the chain returns candidate i, whatever follows it. |
| JsValues.FirstTruthyAllFalsy | lib/index.js:59 | An all-falsy chain returns its fallback. |
| JsValues.FirstTruthyTruthyLast | lib/index.js:58-60 | When the last operand is truthy, the chain over the candidates ending in it equals the chain with it appended as a candidate, so a later `''` fallback is never reached. |
| JsValues.OrChainIsFirstTruthy | lib/index.js:59 | JavaScript's left-nested logical OR of `a`, `b` and `c` is the fallback chain over `[a, b]` that ends in `c`. |
| LogglyReporter.Effective | lib/index.js:21 | The config, or `{}` when it is falsy, is always truthy. It is the config when the config is truthy, and the empty object otherwise. |
| LogglyReporter.OpsRequested | lib/index.js:23 | `events && events.ops` holds only for an object whose own `ops` property is truthy. |
| LogglyReporter.ClientTags | lib/index.js:34 | The client's tags are the config's `tags` array when it is an array. Non-empty tags only ever come from that array; otherwise they are `[]`. |
| LogglyReporter.Construct | lib/index.js:21-36 | Fails with the ops message iff `events` and `events.ops` are both truthy. Otherwise fails with the token message iff the token is not a string. Otherwise fails with the subdomain message iff the subdomain is not a string. Succeeds iff all three checks pass. On success the client gets the token, the subdomain, `json`, no tag header, and the tags (the config's array, else `[]`), and the stored config is the config or `{}` when it is falsy. |
| LogglyReporter.GetMessage | lib/index.js:56-61 | When `data` is truthy, the message is the first truthy of `data.message`, `data.error`, `data`. Otherwise it is `''`. The message is truthy iff `data` is. |
| LogglyReporter.GetMessageFromMessage | lib/index.js:58-59 | A truthy `data.message` is the message. |
| LogglyReporter.GetMessageFromError | lib/index.js:59 | A falsy `message` and a truthy `error` give `data.error`. |
| LogglyReporter.GetMessageFromData | lib/index.js:58-59 | When neither `message` nor `error` is truthy, `data` itself (a string or an object) is the message. |
| LogglyReporter.GetMessageReadsOnlyData | lib/index.js:58-59 | Two events with the same `data` field get the same message. |
| LogglyReporter.StaticFields | lib/index.js:66-67 | The fields copied from the config are among `name` and `hostname`, and all of them are truthy. |
| LogglyReporter.CopyStaticFields | lib/index.js:66-67 | Assigning a truthy `name` and then a truthy `hostname` overlays exactly the static fields on the event. |
| LogglyReporter.StaticFieldsKeep | lib/index.js:66-68 | Copying the static fields changes no field other than `name` and `hostname`. |
| LogglyReporter.Normalize | lib/index.js:63-69 | The reported event has the original keys plus `timestamp`, `msg` and the truthy static fields. `timestamp` is the ISO string. `msg` is the message of the original event. A truthy `name`/`hostname` overwrites the event's own, and a falsy one leaves it as it was. Every other field is unchanged. |
| LogglyReporter.LogglyClient.constructor | lib/index.js:27-35 | The client holds the options it was created with and has made no call yet. |
| LogglyReporter.LogglyClient.Log | lib/index.js:71 | Each `log` appends exactly one call. Nothing is buffered. |
| LogglyReporter.Event.constructor | lib/index.js:63 | The event record holds the fields it was delivered with. |
| LogglyReporter.GoodLoggly.constructor | lib/index.js:27-39 | A reporter holds its client, its config copy and its subscription, and these agree with `Construct`. |
| LogglyReporter.GoodLoggly.New | lib/index.js:15-40 | Fails exactly when `Construct` fails, with the same message. Otherwise returns a fresh reporter and fresh client whose options and stored config are those of `Construct`, with no call made yet. |
| LogglyReporter.GoodLoggly.Report | lib/index.js:63-72 | If the timestamp converts, the event becomes `Normalize` of the old event and exactly one call `(event, old event.tags)` is appended. If the conversion throws, only the static fields have been written and no call is made. |
| ReporterScenarios.ConstructAccepted | test/index.js:66-81 | A null subscription with a token and a subdomain constructs with tags `[]`. With `tags: ['foo']`, the client's tags are `['foo']`. |
| ReporterScenarios.ConstructRefused | test/index.js:83-121 | `{ops: '*'}` without a config fails with the ops message. A missing token and a missing subdomain each fail with their own message. |
| ReporterScenarios.GetMessageScenarios | test/index.js:173-206 | The four fallbacks give `'message'`, `'error'`, `'data'` and `''`. |
| ReporterScenarios.NormalizeLogEvent | test/index.js:27-42 | The test's log event is reported with the ISO timestamp and `msg: 'Log message'`, and nothing else changes. |
| ReporterScenarios.NormalizeNamedLogEvent | test/index.js:142-159 | With `name` and `hostname` configured, both are added to the reported event. |
| ReporterScenarios.ConstructLogSubscription | test/index.js:126 | The subscription `{log: '*'}` with a token and a subdomain constructs, with tags `[]` and the options kept as the config. |
| ReporterScenarios.ReportLogEvent | test/index.js:123-140 | A reporter built for `{log: '*'}` makes exactly one call, carrying the normalised event and the tags `['info', 'server']`. |

## Left out

- Batching, thresholds, max-delay timers and flush on end of stream: `lib/index.js` has none of them.
- `init` (lib/index.js:43-48): the Node stream wiring (`pipe`, the `data` listener, the callback) is plumbing. The model has no stream, so it does not state that each delivered event reaches `Report` once, in order.
- Event filtering by `GoodSqueeze.Squeeze(events)` (lib/index.js:37-39): a foreign library. The model only records the subscription that is passed to it.
- The HTTP transport behind `Loggly.createClient` and `client.log`: the client is a recorder of its options and of its calls.
- `timeString` (lib/index.js:51-54): `Date.prototype.toISOString` is a parameter, not a calendar conversion.
- `Hoek.clone` (lib/index.js:36): values are immutable, so the stored config is a copy by construction.
- Calling `GoodLoggly` without `new` (lib/index.js:17-19): it does the same as with `new`, so `GoodLoggly.New` is the only entry point.
- Aliasing of the logged event: a call records the event as it was when passed. In JavaScript the client holds the same object, and later mutation would be visible to it.
- JavaScript values: no prototype chain, getters, symbols, BigInt, functions or infinities. None of the properties the reporter reads (`ops`, `token`, `subdomain`, `tags`, `name`, `hostname`, `data`, `message`, `error`, `timestamp`) is inherited by plain objects.
- Exceptions other than the RangeError of `toISOString` are not modelled, for instance a TypeError from assigning to a frozen event in strict mode.
- GoodLoggly.Report: the RangeError thrown by `toISOString` does not propagate; it becomes a `false` result, with the partial writes to `name` and `hostname` kept.
