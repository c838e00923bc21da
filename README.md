# Better Stack telemetry adapter — Dafny model

This project models the egress adapter that turns in-process telemetry into
messages for the Better Stack ingestion endpoint. It has two entry points.

- The **trace reporter** (`Trace`, src/lib.rs) takes a flushed batch of spans. It flattens them into one
  `(source, message, level)` record per event, encodes the batch as one array of maps and POSTs it.
  Every failure is logged and nothing reaches the caller.
- The **log appender** (`Appender`, src/appender.rs) turns one log record into one message. It encodes
  that message as a single map, sends it through a fresh client and propagates failures to the caller.

Both entry points use the **delivery client** (`Client`, src/client/mod.rs) and the **header builder**
(`Header`, src/client/header.rs). The builder is a class whose `headers` map `Insert` updates in place.
Each delivery must carry exactly `authorization: Bearer <token>` and `content-type: application/msgpack`.

The encoded body is kept structurally (`Wire.Payload`): a sequence of string-keyed maps, or one map.
The parts the adapter cannot see are inputs in `Wire.Environment`: whether the encoder fails, and what
the transport answers (no answer, or a status with a body that may be unreadable). Each method also
returns the effect it has on the outside world. `sent` is the POST it issued, if any. `Report`'s
`logged` is the error it writes to the local log, if any.

Header-value validity (`Header.ValidHeaderValue`) follows the `http` crate's `HeaderValue::from_str`.
Every character must be a horizontal tab or at least a space and not DEL. Non-ASCII characters count as
valid because they encode to bytes of 0x80 and above (obs-text, section 5.5 of RFC 9110). Only
`Header.BearerValid` and `Header.ContentTypeValid` depend on that definition. The `http` crate is not
part of this model.

Where the description of the system and the code differ, the model follows the code:
- The log path encodes one map, not a one-element array (src/appender.rs:58-62, 75).
- The log path never inspects the HTTP status (src/appender.rs:79-83). A 401 answer is therefore an
  error that `Trace.Report` logs, but `Appender.Append` returns success; it does not propagate an error.

## Model

| member | source | states |
|---|---|---|
| `Wire.BearerValue` | src/client/mod.rs:29 | the authorization value is `Bearer ` followed by the token unchanged |
| `Wire.ExpectedHeaders` | src/client/mod.rs:28-33 | exactly two headers: authorization is `Bearer <token>`, content-type is `application/msgpack` |
| `Header.BearerValid` | src/client/mod.rs:29-30 | `Bearer <token>` is a valid header value exactly when the token is, so the authorization step fails only on a bad token |
| `Header.ContentTypeValid` | src/client/mod.rs:31-32 | the content-type constant is always a valid header value, so that insert cannot fail |
| `Header.HeaderBuilder.Builder` | src/client/header.rs:9-13 | the builder starts with an empty header map |
| `Header.HeaderBuilder.Insert` | src/client/header.rs:15-19 | validation comes first: an invalid value fails and leaves the map unchanged; a valid one maps the key to the value, replacing any earlier value, and keeps every other key and value |
| `Header.HeaderBuilder.Build` | src/client/header.rs:21-23 | returns exactly the accumulated map |
| `Client.GetHeaders` | src/client/mod.rs:27-36 | succeeds exactly when the token is a valid header value; on success the map is exactly the two expected headers; otherwise the error is the authorization-header error |
| `Client.SendMessage` | src/client/mod.rs:38-50 | a request is issued exactly when the headers build; it goes to the client's URL with the expected headers and the body unchanged; a response of any status is returned as success; the only errors are the header error and the transport error |
| `Appender.AsStrInjective` | src/appender.rs:53 | level names are not remapped: distinct levels have distinct names |
| `Appender.DebugList` | src/appender.rs:47 | the debug rendering of the diagnostic list is a bracketed list |
| `Appender.ConvertRecord` | src/appender.rs:39-56 | source is the configured label, message is the rendered text, level is the level's canonical name; diagnostics are absent exactly when the list is empty and are otherwise the list's debug rendering |
| `Appender.LogMap` | src/appender.rs:10-17 | the encoded map has exactly the keys source, message and level, plus diagnostics only when it is present, each holding its field's value |
| `Appender.LogRoundTrip` | src/appender.rs:10-17 | decoding the encoded map yields the message back, including whether diagnostics were present |
| `Appender.NoDiagnosticsNoKey` | src/appender.rs:44-46 | with no diagnostics the encoded record has no diagnostics key at all |
| `Appender.Serialize` | src/appender.rs:58-65 | fails exactly when the encoder fails; otherwise yields a single map, not an array, that decodes to the message |
| `Appender.Append` | src/appender.rs:69-84 | an encoder failure returns the encoding error before any client or request; otherwise a request is issued exactly when the token is valid, carrying the expected headers and the single encoded message; after the request only a transport failure is an error, whatever the HTTP status |
| `Appender.ErrorLineScenario` | src/appender.rs:39-56 | an ERROR line `boom` from source `svc-a` with no diagnostics encodes as exactly those three fields |
| `Trace.EventLevelFirstMatch` | src/lib.rs:41-45 | the level is the value of the first property keyed `level`, whatever comes after it |
| `Trace.EventLevelDefault` | src/lib.rs:41-45 | with no property keyed `level` the level is `INFO` |
| `Trace.EventLevelOrigin` | src/lib.rs:41-45 | every level is either the value of the first `level` entry or, with none, the default |
| `Trace.WarnLevelScenario` | src/lib.rs:41-45 | `{level: WARN, other: x}` gives `WARN`; `{other: x}` gives `INFO` |
| `Trace.ConvertLength` | src/lib.rs:36-55 | one message per event: the length is the total number of events over all spans |
| `Trace.ConvertConcat` | src/lib.rs:37-54 | converting a concatenated batch is concatenating the conversions |
| `Trace.ConvertAt` | src/lib.rs:39-53 | event j of span i becomes the message at position (events of the earlier spans) + j, with the span's name as source, the event's name as message and the event's level |
| `Trace.ConvertOrigin` | src/lib.rs:39-53 | every message comes from exactly such an event, so nothing else appears in the output |
| `Trace.EmptySpanContributesNothing` | src/lib.rs:39-53 | a span without events adds no message wherever it stands in the batch |
| `Trace.MessageMap` | src/lib.rs:14-19 | a message encodes as a map with exactly the keys source, message and level |
| `Trace.Encode` | src/lib.rs:57-64 | the encoded array has one map per message, each with exactly the three field keys |
| `Trace.RoundTrip` | src/lib.rs:57-64 | decoding the encoded array yields the messages back, field for field and in order |
| `Trace.Serialize` | src/lib.rs:57-64 | fails exactly when the encoder fails; otherwise yields an array that decodes to the messages |
| `Trace.ResponseOutcome` | src/lib.rs:85-95 | a 2xx status is success; any other status is an error carrying the status and the body text, or `<empty>` when the body cannot be read |
| `Trace.TryReport` | src/lib.rs:66-96 | stages run in order and the first failure wins: an encoder failure or an invalid token returns its error with no request; otherwise one POST of the encoded converted batch goes to the reporter's host with the expected headers, and the result is the transport error or the status classification |
| `Trace.Report` | src/lib.rs:100-108 | an empty batch sends nothing and logs nothing; otherwise it does what `TryReport` does and logs its error, if any, instead of returning it |

## Left out

- HTTP transport (`reqwest` client construction, `post().send()`, `response.text()`): network I/O. It is the input `Wire.Transport`: no answer, or a status with a body that may be unreadable.
- MessagePack bytes (`rmp_serde` with struct maps): a foreign encoder. The body is the structural `Wire.Payload`, and the encoder's failure is the input `encoderFails`.
- `record.args().to_string()` and each diagnostic's `Debug` output: formatting outside the core. A record carries its rendered text, and a diagnostic carries its debug string.
- The text of `anyhow` context messages and of the `log::error!` line: formatting only. Errors are the structured `Wire.Error` kinds, and `ApiError` carries the status and body it would print.
- Constructors (`new`), the shared `reqwest` client in the reporter, and the `Reporter`/`Append` trait plumbing: they only wire fields in. Configurations are plain datatypes.
- src/header.rs, which src/lib.rs:1 declares, is not part of this model. `Trace.TryReport` assumes it behaves like src/client/header.rs and uses `Header.HeaderBuilder`.
- src/lib.rs as shown declares neither `mod client` nor `mod appender`. The model treats the appender and the client as part of the crate regardless.
- Header names are taken in their lower-case form (`authorization`, `content-type`), as the `http` crate stores them. Multi-valued header entries are not modelled because each key is inserted once.
- Concurrency: every call is independent and holds no shared mutable state, so there is nothing to model.
