/** The trace reporter (src/lib.rs): a flushed span batch becomes one delivered array of messages. */
module Trace {
  import opened Wrappers
  import opened Wire
  import opened Header

  /** An event inside a span: its name and its properties in recorded order. */
  datatype EventRecord = EventRecord(name: string, properties: seq<(string, string)>)

  /** A completed span: its name and its events in order. */
  datatype SpanRecord = SpanRecord(name: string, events: seq<EventRecord>)

  /** The trace path's wire record. */
  datatype SpanMessage = SpanMessage(source: string, message: string, level: string)

  /** `BetterstackReporter`: endpoint URL and bearer token. */
  datatype BetterstackReporter = BetterstackReporter(ingestHost: string, token: string)

  const LevelKey: string := "level"
  const DefaultLevel: string := "INFO"

  /** The value of the first property keyed "level", or the default when there is none. */
  function EventLevel(properties: seq<(string, string)>): string
  {
    if properties == [] then DefaultLevel
    else if properties[0].0 == LevelKey then properties[0].1
    else EventLevel(properties[1..])
  }

  /** The first "level" entry wins, whatever follows it. */
  lemma {:induction false} EventLevelFirstMatch(properties: seq<(string, string)>, i: nat)
    requires i < |properties| && properties[i].0 == LevelKey
    requires forall j :: 0 <= j < i ==> properties[j].0 != LevelKey
    ensures EventLevel(properties) == properties[i].1
  {
    if i > 0 {
      EventLevelFirstMatch(properties[1..], i - 1);
    }
  }

  /** With no "level" entry the level is "INFO". */
  lemma {:induction false} EventLevelDefault(properties: seq<(string, string)>)
    requires forall j :: 0 <= j < |properties| ==> properties[j].0 != LevelKey
    ensures EventLevel(properties) == DefaultLevel
  {
    if properties != [] {
      EventLevelDefault(properties[1..]);
    }
  }

  /** The level is always either the value of some "level" entry or the default. */
  lemma {:induction false} EventLevelOrigin(properties: seq<(string, string)>) returns (i: nat)
    ensures i <= |properties|
    ensures i < |properties| ==> properties[i].0 == LevelKey && EventLevel(properties) == properties[i].1
    ensures i == |properties| ==> EventLevel(properties) == DefaultLevel
    ensures forall j :: 0 <= j < i ==> properties[j].0 != LevelKey
  {
    if properties == [] {
      return 0;
    } else if properties[0].0 == LevelKey {
      return 0;
    } else {
      var k := EventLevelOrigin(properties[1..]);
      i := k + 1;
    }
  }

  /** The message for one event of one span. */
  function ToMessage(span: SpanRecord, event: EventRecord): SpanMessage
  {
    SpanMessage(span.name, event.name, EventLevel(event.properties))
  }

  /** The messages of one span, one per event, in event order. */
  function SpanMessages(span: SpanRecord): seq<SpanMessage>
  {
    seq(|span.events|, j requires 0 <= j < |span.events| => ToMessage(span, span.events[j]))
  }

  /** `convert`: the flat sequence of messages, span by span. */
  function Convert(spans: seq<SpanRecord>): seq<SpanMessage>
  {
    if spans == [] then [] else SpanMessages(spans[0]) + Convert(spans[1..])
  }

  /** The number of events over all spans. */
  function TotalEvents(spans: seq<SpanRecord>): nat
  {
    if spans == [] then 0 else |spans[0].events| + TotalEvents(spans[1..])
  }

  /** One message per event. */
  lemma {:induction false} ConvertLength(spans: seq<SpanRecord>)
    ensures |Convert(spans)| == TotalEvents(spans)
  {
    if spans != [] {
      ConvertLength(spans[1..]);
    }
  }

  /** Converting a concatenated batch is concatenating the conversions. */
  lemma {:induction false} ConvertConcat(a: seq<SpanRecord>, b: seq<SpanRecord>)
    ensures Convert(a + b) == Convert(a) + Convert(b)
  {
    if a == [] {
      assert a + b == b;
    } else {
      assert (a + b)[0] == a[0];
      assert (a + b)[1..] == a[1..] + b;
      ConvertConcat(a[1..], b);
    }
  }

  /**
   * Event j of span i becomes the message at position
   * (events of the spans before i) + j: content and order both.
   */
  lemma {:induction false} ConvertAt(spans: seq<SpanRecord>, i: nat, j: nat)
    requires i < |spans| && j < |spans[i].events|
    ensures TotalEvents(spans[..i]) + j < |Convert(spans)|
    ensures Convert(spans)[TotalEvents(spans[..i]) + j] == ToMessage(spans[i], spans[i].events[j])
  {
    if i == 0 {
      assert spans[..0] == [];
    } else {
      var rest := spans[1..];
      ConvertAt(rest, i - 1, j);
      assert spans[..i][0] == spans[0];
      assert spans[..i][1..] == rest[..i - 1];
      assert rest[i - 1] == spans[i];
    }
  }

  /** Every message comes from one event: the inverse of ConvertAt. */
  lemma {:induction false} ConvertOrigin(spans: seq<SpanRecord>, k: nat) returns (i: nat, j: nat)
    requires k < |Convert(spans)|
    ensures i < |spans| && j < |spans[i].events|
    ensures k == TotalEvents(spans[..i]) + j
    ensures Convert(spans)[k] == ToMessage(spans[i], spans[i].events[j])
  {
    var first := |spans[0].events|;
    if k < first {
      i, j := 0, k;
      assert spans[..0] == [];
    } else {
      var rest := spans[1..];
      var i', j' := ConvertOrigin(rest, k - first);
      i, j := i' + 1, j';
      assert spans[..i][0] == spans[0];
      assert spans[..i][1..] == rest[..i'];
    }
  }

  /** A span with no events contributes nothing wherever it stands. */
  lemma EmptySpanContributesNothing(a: seq<SpanRecord>, s: SpanRecord, b: seq<SpanRecord>)
    requires s.events == []
    ensures Convert(a + [s] + b) == Convert(a + b)
  {
    ConvertConcat(a + [s], b);
    ConvertConcat(a, [s]);
    ConvertConcat(a, b);
    assert [s][1..] == [];
  }

  const FieldKeys: set<string> := {"source", "message", "level"}

  /** The map the encoder writes for one message, keyed by field name. */
  function MessageMap(m: SpanMessage): (r: map<string, string>)
    ensures r.Keys == FieldKeys
  {
    map["source" := m.source, "message" := m.message, "level" := m.level]
  }

  /** The array the encoder writes: one map per message, in order. */
  function Encode(msgs: seq<SpanMessage>): (r: seq<map<string, string>>)
    ensures |r| == |msgs|
    ensures forall k :: 0 <= k < |r| ==> r[k].Keys == FieldKeys
  {
    if msgs == [] then [] else [MessageMap(msgs[0])] + Encode(msgs[1..])
  }

  /** What a conforming map decoder recovers from one record. */
  function DecodeRecord(r: map<string, string>): Option<SpanMessage>
  {
    if r.Keys == FieldKeys then Some(SpanMessage(r["source"], r["message"], r["level"])) else None
  }

  function Decode(records: seq<map<string, string>>): Option<seq<SpanMessage>>
  {
    if records == [] then Some([])
    else
      match (DecodeRecord(records[0]), Decode(records[1..]))
      case (Some(m), Some(ms)) => Some([m] + ms)
      case _ => None
  }

  /** Decoding the encoded array gives the messages back, field for field and in order. */
  lemma {:induction false} RoundTrip(msgs: seq<SpanMessage>)
    ensures Decode(Encode(msgs)) == Some(msgs)
  {
    if msgs != [] {
      var e := Encode(msgs);
      assert e[0] == MessageMap(msgs[0]);
      assert e[1..] == Encode(msgs[1..]);
      RoundTrip(msgs[1..]);
      assert [msgs[0]] + msgs[1..] == msgs;
    }
  }

  /** `serialize`: the messages as one array of maps, or the encoder's failure. */
  function Serialize(msgs: seq<SpanMessage>, encoderFails: bool): (r: Result<Payload, Error>)
    ensures r.Err? <==> encoderFails
    ensures r.Err? ==> r.error == EncodingError
    ensures r.Ok? ==> r.value.Array? && Decode(r.value.records) == Some(msgs)
  {
    RoundTrip(msgs);
    if encoderFails then Err(EncodingError) else Ok(Array(Encode(msgs)))
  }

  /** Status classification: 2xx is success, anything else an error carrying status and body. */
  function ResponseOutcome(response: HttpResponse): (r: Result<(), Error>)
    ensures r.Ok? <==> IsSuccess(response.status)
    ensures r.Err? ==> r.error == ApiError(response.status, BodyText(response))
  {
    if IsSuccess(response.status) then Ok(()) else Err(ApiError(response.status, BodyText(response)))
  }

  /**
   * What one `try_report` call does. The stages run in order and the first
   * failure wins: an encoder failure or an unusable token returns before any
   * request; otherwise exactly one POST of the encoded batch is issued, and a
   * transport failure or a non-2xx status is the error.
   */
  ghost predicate TryReportOutcome(reporter: BetterstackReporter, spans: seq<SpanRecord>, env: Environment,
                                   r: Result<(), Error>, sent: Option<Request>)
  {
    if env.encoderFails then
      r == Err(EncodingError) && sent == None
    else if !ValidHeaderValue(reporter.token) then
      r == Err(InvalidAuthorizationHeader) && sent == None
    else
      && sent == Some(Request(reporter.ingestHost, ExpectedHeaders(reporter.token), Array(Encode(Convert(spans)))))
      && r == match env.transport
              case ConnectionFailed => Err(TransportError)
              case Responded(response) => ResponseOutcome(response)
  }

  /** `try_report`: convert, serialize, build headers, POST, classify the status. */
  method TryReport(reporter: BetterstackReporter, spans: seq<SpanRecord>, env: Environment)
    returns (r: Result<(), Error>, sent: Option<Request>)
    ensures TryReportOutcome(reporter, spans, env, r, sent)
  {
    var messages := Convert(spans);
    var bytes := Serialize(messages, env.encoderFails);
    if bytes.Err? {
      return Err(bytes.error), None;
    }

    BearerValid(reporter.token);
    ContentTypeValid();
    var builder := new HeaderBuilder.Builder();
    var ok := builder.Insert(AuthorizationHeader, BearerValue(reporter.token));
    if !ok {
      return Err(InvalidAuthorizationHeader), None;
    }
    ok := builder.Insert(ContentTypeHeader, MsgpackContentType);
    if !ok {
      return Err(InvalidContentTypeHeader), None;
    }
    var headers := builder.Build();
    assert headers == ExpectedHeaders(reporter.token);

    sent := Some(Request(reporter.ingestHost, headers, bytes.value));
    match env.transport
    case ConnectionFailed =>
      r := Err(TransportError);
    case Responded(response) =>
      r := ResponseOutcome(response);
  }

  /**
   * `report`: an empty batch returns at once, with nothing sent and nothing
   * logged. Otherwise it runs `try_report` and logs its error, if any; no
   * error ever reaches the caller.
   */
  method Report(reporter: BetterstackReporter, spans: seq<SpanRecord>, env: Environment)
    returns (logged: Option<Error>, sent: Option<Request>)
    ensures spans == [] ==> logged == None && sent == None
    ensures spans != [] ==>
      TryReportOutcome(reporter, spans, env, if logged.Some? then Err(logged.value) else Ok(()), sent)
  {
    if spans == [] {
      return None, None;
    }
    var r;
    r, sent := TryReport(reporter, spans, env);
    logged := if r.Err? then Some(r.error) else None;
  }

  /** A "level" property sets the level; other properties do not matter. */
  lemma WarnLevelScenario()
    ensures EventLevel([("level", "WARN"), ("other", "x")]) == "WARN"
    ensures EventLevel([("other", "x")]) == DefaultLevel
  {
  }
}
