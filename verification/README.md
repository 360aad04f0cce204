# Structured logger — Dafny model

This project models the core of a small JavaScript structured-logging façade
(`logger.js`). A `Logger` is built from a config. Its `log(data, level)`
builds a record with `createLogObject` and renders it with `format`. It then
hands the raw level and the rendered text to `transport`. The model has four
parts:

- **Configuration resolution** (`Logging.NewLogger`, `Logging.ResolveRoot`).
  The root falls back to `"root"`. An override replaces the built-in
  formatter or transport exactly when the config supplies a function. A
  missing config makes the constructor throw a `TypeError`.
- **Record construction** (`Logging.CreateLogObject`). This is
  `Object.assign({root}, data, {level: level || 'info'})` over
  insertion-ordered objects (`Records`). String data is wrapped as
  `{message: data}`. Any other primitive contributes no property. The lemmas
  pin down which key comes from which source, and in what order.
- **The built-in formatter** (`Logging.DefaultFormat`). The record's JSON text
  (`Json.Serialize`) is wrapped in the ANSI colour its level selects. The
  inverse `Logging.Unpaint` reads the colour and the JSON text back.
- **The `log` pipeline** (`Logging.Log`). It returns the single transport call
  it makes. The built-in console transport is `Logging.ConsoleOutput`.

Modules: `Wrappers` (Option/Result), `Records` (JavaScript objects and
`Object.assign`), `Json` (`JSON.stringify` for flat string-valued objects),
`Logging` (the logger) and `Scenarios` (end-to-end runs from the example
driver and the tests).

Two consequences of the code:

- The record always has a `root`. The constructor makes `this.root` truthy,
  so `rootObj` always exists. A root cleared to `""` after construction makes
  `Object.assign(undefined, …)` throw. The record does not just lose its root.
- The caller's object is a merge *source*, not the target, so it is never
  modified. The caller's `root` key overrides the configured root, because
  `{root}` is merged first. Only `level` is applied after the caller's data.

## Model

| member | source | states |
|---|---|---|
| Records.Get | logger.js:48 | A property read yields a value exactly when the object lists the key. |
| Records.Single | logger.js:34 | A one-property literal `{k: v}` has key list `[k]` and holds `v` under `k`. |
| Records.Put | logger.js:39 | A property write keeps an existing key in its place or appends a new key last. Reading it back gives the new value, and every other key reads as before. |
| Records.AssignGet | logger.js:39 | After `Object.assign(target, source)`, a source key reads as the source's value ("later source wins"). Every other key reads as the target's. |
| Records.AssignKeys | logger.js:39 | `Object.assign` key order: the target's keys stay in place, then the source's new keys follow in source order. |
| Records.CopyIntoKeys | logger.js:39 | Copying distinct keys appends exactly those the target lacked, in copy order (the induction behind `AssignKeys`). |
| Json.EscapeChar | logger.js:46 | JSON string escaping never emits a control character. It leaves a character unchanged exactly when that character is printable and not `"` or `\`. |
| Json.EscapeAllPlain | logger.js:46 | Text that needs no escaping appears unchanged inside the JSON string. |
| Json.Serialize | logger.js:46 | The JSON text of a record is delimited by braces and holds no control character, so no ESC. |
| Logging.ResolveRoot | logger.js:11 | The resolved root is never empty. It is the configured root when that is a non-empty string, and `"root"` when it is absent or empty. |
| Logging.NewLogger | logger.js:10-20 | Construction fails exactly when the config is missing. The logger's root is the resolved configured root. The logger uses the caller's formatter or transport exactly when the config supplies a function for it, and uses that very function. Otherwise the built-in stays, with no error. |
| Logging.DefaultLevel | logger.js:39 | A non-empty level is kept, and an absent or empty one becomes `"info"`. |
| Logging.CreateLogObject | logger.js:30-42 | Building the record throws exactly when the logger's root is empty, because the merge target is then undefined. |
| Logging.CreateLogObjectGet | logger.js:33-39 | The record holds, key by key, what the reference `ExpectedValue` says: the defaulted level under `level`, the caller's value under every other caller key, the root otherwise under `root`, and nothing else. |
| Logging.CreateLogObjectKeys | logger.js:34-39 | Key order: `root` first, then the caller's other keys in order, then `level` unless the caller already placed it. |
| Logging.CreateLogObjectLevel | logger.js:39 | The record's level is the defaulted level argument, even when the caller's object has its own `level`. |
| Logging.CreateLogObjectRoot | logger.js:33-39 | A caller-supplied `root` overrides the configured root. Otherwise the configured root fills in, so the record always has a root. |
| Logging.CreateLogObjectCallerKeys | logger.js:37-39 | Every caller key other than `level` reaches the record unchanged. The record's keys are exactly `root`, `level` and the caller's keys. |
| Logging.CreateLogObjectFromText | logger.js:37-39 | String data `s` yields exactly `{root: R, message: s, level: L'}` in that order, where `L'` is the defaulted level. |
| Logging.CreateLogObjectOneField | logger.js:37-39 | Data with a single property `k` other than `root` and `level` yields exactly `{root, k, level}` in that order, holding the root, the caller's value and the defaulted level. |
| Logging.CreateLogObjectFromPrimitive | logger.js:37-39 | Data that is neither a string nor an object contributes nothing: the record is exactly `{root, level}` in that order, holding the root and the defaulted level. |
| Logging.NewLoggerRecordRoot | logger.js:11-39 | For a constructed logger, a record built from data without its own `root` carries the configured root, or `"root"` when none or an empty one was configured. |
| Logging.NewLoggerCanLog | logger.js:11-35 | A logger built by the constructor never hits the undefined merge target. |
| Logging.ColourFor | logger.js:48-60 | `error` gives red, `warning` gives yellow and `debug` gives blue, each in both directions. Any other level, or no level, gives green. |
| Logging.Paint | logger.js:50-59 | A painted text is read back by `Unpaint` as its colour and the original text. |
| Logging.UnpaintPaint | test/logger.js:146-169 | Every text `Unpaint` accepts is exactly the colour code, the inner text and the reset code. |
| Logging.DefaultFormat | logger.js:44-63 | The built-in format reads back as the colour of the record's level plus the record's JSON text. No ESC occurs between the two colour codes. |
| Logging.DefaultFormatMarkers | test/logger.js:136-170 | The built-in format starts with the start code of the level's colour and ends with `\u001b[39m`. |
| Logging.Log | logger.js:23-28 | `log` fails exactly when record construction does. Otherwise its one transport call goes to the logger's transport with the raw, undefaulted level argument. |
| Logging.LogWithDefaultFormat | logger.js:23-28 | With the built-in formatter, the transport receives the record's JSON painted in the colour of the defaulted level. Its level argument stays raw. |
| Logging.LogWithCustomFormat | logger.js:23-28 | With a caller-supplied formatter, the transport receives exactly that function's result for the record. |
| Logging.LogConsoleOutput | logger.js:23-67 | For any logger that can log, the built-in transport writes exactly one line to standard output: the formatted record, unmodified. A caller-supplied transport makes `log` write nothing there. |
| Scenarios.DefaultLoggerLogsText | logger.js:23-67 | On a logger with no root and no function override, logging a string gives the record `{root: "root", message, level}`. The one console line is its JSON in the level's colour. |
| Scenarios.NamedLoggerLogsObject | useLogger.js:5-7 | `new Logger({root: 'driver'}).log({message: …})` gives `{root: "driver", message, level: "info"}`, painted green. The transport receives no level. |

## Left out

- Standard output: `console.log` is I/O. `ConsoleOutput` only records the line that would be written.
- Caller-supplied transports: a transport is identified by a number. `log` discards its return value, and its side effects (such as the example driver's file append) are outside the model.
- Throwing overrides: a caller's formatter is a total function here. A JavaScript override that throws would propagate out of `log`.
- chalk's terminal-capability detection: the model uses the colours-enabled output only.
- Paint: omits two chalk behaviours. chalk returns an empty text unchanged, without codes, and it re-opens the colour around a reset code or a line break found inside the text. Neither can arise in the logger: `Json.Serialize` is proved non-empty (at least the two braces) and free of control characters, so it has no ESC and no line break.
- Values that are not strings: record values, `root` and `level` are strings. A number `root` or a `0` level, with the JSON they would produce, is not modelled. Data that is a non-string primitive is modelled as `Primitive`, which contributes no property.
- Property order for integer-like keys: JavaScript lists keys such as `"2"` before string keys. The model keeps pure insertion order for every key.
- A `__proto__` property in the caller's object: `Object.assign` would assign it through the inherited `__proto__` setter. With a string value that setter does nothing, so the key would be dropped from the record, whereas the model copies it like any other key.
- Not modifying the caller's object: the model uses values, and the only object the merge writes to is the fresh `{root}`. No member states this separately, because it holds by construction.
- Mutating a logger after construction is not modelled, except that a `Logger` value may carry an empty root. That value exposes the `TypeError` path of `createLogObject`.
- `JSON.stringify` beyond flat string-valued objects (nesting, numbers, lone surrogates): the logger's records in this model hold only strings.
- The example driver's YAML formatter and file transport (useLogger.js:13-32): they are external libraries reached through the override points.
