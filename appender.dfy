/** The log adapter (src/appender.rs): one log record becomes one delivered message. */
module Appender {
  import opened Wrappers
  import Wire
  import opened Header
  import opened Client

  /** The log framework's severity levels. */
  datatype Level = Error | Warn | Info | Debug | Trace

  /** The canonical upper-case name of a level. */
  function AsStr(level: Level): string
  {
    match level
    case Error => "ERROR"
    case Warn => "WARN"
    case Info => "INFO"
    case Debug => "DEBUG"
    case Trace => "TRACE"
  }

  /** Distinct levels have distinct names, so the name alone tells the level. */
  lemma AsStrInjective(a: Level, b: Level)
    ensures AsStr(a) == AsStr(b) ==> a == b
  {
  }

  /** One log invocation: its severity and its rendered text. */
  datatype LogRecord = LogRecord(level: Level, text: string)

  /** A diagnostic context item, represented by its debug rendering. */
  datatype Diagnostic = Diagnostic(debug: string)

  /** The debug rendering of a list of diagnostics: `[d1, d2, ...]`. */
  function DebugList(diagnostics: seq<Diagnostic>): (s: string)
    ensures |s| >= 2 && s[0] == '[' && s[|s| - 1] == ']'
  {
    "[" + JoinDebug(diagnostics) + "]"
  }

  function JoinDebug(diagnostics: seq<Diagnostic>): string
  {
    if diagnostics == [] then ""
    else if |diagnostics| == 1 then diagnostics[0].debug
    else diagnostics[0].debug + ", " + JoinDebug(diagnostics[1..])
  }

  /** The log path's wire record; `diagnostics` is left out of the encoding when absent. */
  datatype LogMessage = LogMessage(source: string, message: string, level: string, diagnostics: Option<string>)

  /** `BetterStackAppender`: endpoint, token and the fixed source label. */
  datatype BetterStackAppender = BetterStackAppender(ingestHost: string, token: string, source: string)

  /**
   * `convert_record`: the configured source, the rendered text and the
   * level's own name; diagnostics present exactly when the list is not empty.
   */
  function ConvertRecord(appender: BetterStackAppender, record: LogRecord, diagnostics: seq<Diagnostic>): (m: LogMessage)
    ensures m.source == appender.source && m.message == record.text && m.level == AsStr(record.level)
    ensures m.diagnostics.None? <==> diagnostics == []
    ensures m.diagnostics.Some? ==> m.diagnostics.value == DebugList(diagnostics)
  {
    var rendered := if diagnostics == [] then None else Some(DebugList(diagnostics));
    LogMessage(appender.source, record.text, AsStr(record.level), rendered)
  }

  const RequiredKeys: set<string> := {"source", "message", "level"}

  /** The map the encoder writes for one message: field names as keys, absent fields omitted. */
  function LogMap(m: LogMessage): (r: map<string, string>)
    ensures r.Keys == if m.diagnostics.Some? then RequiredKeys + {"diagnostics"} else RequiredKeys
    ensures r["source"] == m.source && r["message"] == m.message && r["level"] == m.level
    ensures m.diagnostics.Some? ==> r["diagnostics"] == m.diagnostics.value
  {
    var base := map["source" := m.source, "message" := m.message, "level" := m.level];
    if m.diagnostics.Some? then base["diagnostics" := m.diagnostics.value] else base
  }

  /** What a conforming map decoder recovers from one record. */
  function DecodeLog(r: map<string, string>): Option<LogMessage>
  {
    if r.Keys == RequiredKeys then
      Some(LogMessage(r["source"], r["message"], r["level"], None))
    else if r.Keys == RequiredKeys + {"diagnostics"} then
      Some(LogMessage(r["source"], r["message"], r["level"], Some(r["diagnostics"])))
    else
      None
  }

  /** Decoding the encoded record gives the message back, diagnostics presence included. */
  lemma LogRoundTrip(m: LogMessage)
    ensures DecodeLog(LogMap(m)) == Some(m)
  {
  }

  /** With no diagnostics the encoded record holds exactly source, message and level. */
  lemma NoDiagnosticsNoKey(appender: BetterStackAppender, record: LogRecord)
    ensures LogMap(ConvertRecord(appender, record, [])).Keys == RequiredKeys
  {
  }

  /** `serialize`: one message encoded as a single map, or the encoder's failure. */
  function Serialize(m: LogMessage, encoderFails: bool): (r: Result<Wire.Payload, Wire.Error>)
    ensures r.Err? <==> encoderFails
    ensures r.Err? ==> r.error == Wire.EncodingError
    ensures r.Ok? ==> r.value.Single? && DecodeLog(r.value.record) == Some(m)
  {
    LogRoundTrip(m);
    if encoderFails then Err(Wire.EncodingError) else Ok(Wire.Single(LogMap(m)))
  }

  /**
   * `append`: convert, serialize, then send through a fresh client. An
   * encoder failure stops before any client or request; after the request is
   * issued only a transport failure is an error, whatever the status.
   */
  method Append(appender: BetterStackAppender, record: LogRecord, diagnostics: seq<Diagnostic>, env: Wire.Environment)
    returns (r: Result<(), Wire.Error>, sent: Option<Wire.Request>)
    ensures env.encoderFails ==> r == Err(Wire.EncodingError) && sent == None
    ensures !env.encoderFails ==> (sent.Some? <==> ValidHeaderValue(appender.token))
    ensures sent.Some? ==> sent.value == Wire.Request(appender.ingestHost, Wire.ExpectedHeaders(appender.token),
                                                      Wire.Single(LogMap(ConvertRecord(appender, record, diagnostics))))
    ensures !env.encoderFails && sent.None? ==> r == Err(Wire.InvalidAuthorizationHeader)
    ensures sent.Some? ==> (r == if env.transport.Responded? then Ok(()) else Err(Wire.TransportError))
  {
    var message := ConvertRecord(appender, record, diagnostics);
    var bytes := Serialize(message, env.encoderFails);
    if bytes.Err? {
      return Err(bytes.error), None;
    }
    var client := BetterStackClient(appender.ingestHost, appender.token);
    var response;
    response, sent := SendMessage(client, bytes.value, env.transport);
    if response.Err? {
      return Err(response.error), sent;
    }
    return Ok(()), sent;
  }

  /** A one-line error log with no diagnostics encodes as exactly three fields. */
  lemma ErrorLineScenario()
    ensures LogMap(ConvertRecord(BetterStackAppender("https://in.example", "t0k", "svc-a"), LogRecord(Error, "boom"), []))
            == map["source" := "svc-a", "message" := "boom", "level" := "ERROR"]
  {
  }
}
