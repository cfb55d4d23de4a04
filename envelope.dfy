/**
 * The pure data shaping of `dsr_model_sdk/session.py`: the session dict, the
 * per-event payloads, the envelope built as `sdk_metadata | body`, the bridge
 * URL and the one-record wire body. Each builder is paired with a decoder and
 * a round trip, or with a contract that says which keys win a merge.
 */
module Envelope {
  import opened JsonValue

  /** HTTP request headers, as `dict(request.headers)` yields them. */
  type Headers = map<string, string>

  /** `MessageType` of the SDK; only the member names are used on the wire. */
  datatype MessageType = EVENT | RESULT

  function MessageTypeName(t: MessageType): string
  {
    match t
    case EVENT => "EVENT"
    case RESULT => "RESULT"
  }

  /** The closed enumeration `EventType`. */
  datatype EventType = PREDICT_START | PREDICT_PROCESSING | PREDICT_FAILED | PREDICT_COMPLETED

  function EventName(e: EventType): string
  {
    match e
    case PREDICT_START => "PREDICT_START"
    case PREDICT_PROCESSING => "PREDICT_PROCESSING"
    case PREDICT_FAILED => "PREDICT_FAILED"
    case PREDICT_COMPLETED => "PREDICT_COMPLETED"
  }

  /** The topic names imported from the topics module, fixed for the process. */
  datatype TopicNames = TopicNames(event: string, result: string, health: string)

  /** The `self.session` dict: id and start stamp, and an end stamp or `None`. */
  datatype SessionInfo = SessionInfo(id: string, start: string, end: Option<string>)

  /** The session dict as the JSON object placed in every envelope. */
  function SessionJson(info: SessionInfo): Json
  {
    JObj(map["id" := JStr(info.id), "start" := JStr(info.start), "end" := OptionalString(info.end)])
  }

  /** Reads a session dict back; the partner of `SessionJson`. */
  function DecodeSession(j: Json): Option<SessionInfo>
  {
    match (Get(j, "id"), Get(j, "start"), Get(j, "end"))
    case (Some(JStr(id)), Some(JStr(start)), Some(JNull)) => Some(SessionInfo(id, start, None))
    case (Some(JStr(id)), Some(JStr(start)), Some(JStr(end))) => Some(SessionInfo(id, start, Some(end)))
    case _ => None
  }

  lemma SessionRoundTrip(info: SessionInfo)
    ensures DecodeSession(SessionJson(info)) == Some(info)
  {
  }

  /** `dict(request.headers)` as a JSON object of strings. */
  function HeadersJson(h: Headers): Json
  {
    JObj(map k | k in h :: JStr(h[k]))
  }

  /** Reads a JSON object of strings back into headers; the partner of `HeadersJson`. */
  function DecodeHeaders(j: Json): Option<Headers>
  {
    if j.JObj? && forall k :: k in j.fields ==> j.fields[k].JStr? then
      Some(map k | k in j.fields :: j.fields[k].str)
    else
      None
  }

  lemma HeadersRoundTrip(h: Headers)
    ensures DecodeHeaders(HeadersJson(h)) == Some(h)
  {
    var fields := HeadersJson(h).fields;
    assert (map k | k in fields :: fields[k].str) == h;
  }

  /** The keys every lifecycle body has. */
  const BodyKeys: set<string> := {"type", "session", "data", "extra"}

  /**
   * The body dict of a lifecycle method: message type, the session snapshot,
   * the event payload and the request headers under `extra`.
   */
  function Body(kind: MessageType, info: SessionInfo, data: Dict, headers: Headers): (b: Dict)
    ensures b.Keys == BodyKeys
  {
    map[
      "type" := JStr(MessageTypeName(kind)),
      "session" := SessionJson(info),
      "data" := JObj(data),
      "extra" := JObj(map["headers" := HeadersJson(headers)])
    ]
  }

  /** A body reads back as its type, session snapshot, payload and headers. */
  lemma BodyReadsBack(kind: MessageType, info: SessionInfo, data: Dict, headers: Headers)
    ensures var b := Body(kind, info, data, headers);
      && b["type"] == JStr(MessageTypeName(kind))
      && DecodeSession(b["session"]) == Some(info)
      && b["data"] == JObj(data)
      && HeadersOf(b) == Some(headers)
  {
    SessionRoundTrip(info);
    HeadersRoundTrip(headers);
  }

  /** The request headers an envelope carries under `extra.headers`, if any. */
  function HeadersOf(envelope: Dict): Option<Headers>
  {
    if "extra" in envelope then
      match Get(envelope["extra"], "headers")
      case Some(h) => DecodeHeaders(h)
      case None => None
    else
      None
  }

  /** Python's `meta | body` on dicts. */
  function Merge(meta: Dict, body: Dict): Dict
  {
    meta + body
  }

  /** The merge has every key of both dicts, and on a clash the right-hand (body) value wins. */
  lemma MergeRightBiased(meta: Dict, body: Dict)
    ensures var r := Merge(meta, body);
      && r.Keys == meta.Keys + body.Keys
      && (forall k :: k in body ==> r[k] == body[k])
      && (forall k :: k in meta && k !in body ==> r[k] == meta[k])
  {
  }

  /** Payload of `start`: the event kind alone. */
  function StartData(): Dict
  {
    map["event" := JStr(EventName(PREDICT_START))]
  }

  /** Payload of `processing`: the kind merged with the caller's data. */
  function ProcessingData(data: Dict): Dict
  {
    Merge(map["event" := JStr(EventName(PREDICT_PROCESSING))], data)
  }

  /** Payload of `completed`: the kind, and the caller's data under `"result"`. */
  function CompletedData(data: Dict): Dict
  {
    map["event" := JStr(EventName(PREDICT_COMPLETED)), "result" := JObj(Merge(map[], data))]
  }

  /** Payload of `failed`: the kind, and the caller's error under `"error"`. */
  function FailedData(error: Dict): Dict
  {
    map["event" := JStr(EventName(PREDICT_FAILED)), "error" := JObj(Merge(map[], error))]
  }

  /** Payload of `result`: the inline JSON and the reference path, either possibly `None`. */
  function ResultData(json: Json, path: Option<string>): Dict
  {
    map["json" := json, "path" := OptionalString(path)]
  }

  /**
   * The processing payload keeps every key of the caller's data and adds
   * `"event"`; a caller-supplied `"event"` replaces the kind.
   */
  lemma ProcessingOverrides(data: Dict)
    ensures var d := ProcessingData(data);
      && d.Keys == data.Keys + {"event"}
      && d["event"] == (if "event" in data then data["event"] else JStr("PREDICT_PROCESSING"))
      && (forall k :: k in data ==> d[k] == data[k])
  {
    MergeRightBiased(map["event" := JStr(EventName(PREDICT_PROCESSING))], data);
  }

  /**
   * `start` carries exactly its kind; `completed` and `failed` carry their kind
   * and the caller's dict, unchanged, under `"result"` and `"error"`; `result`
   * carries exactly `json` and `path`.
   */
  lemma FixedPayloads(data: Dict, json: Json, path: Option<string>)
    ensures StartData() == map["event" := JStr("PREDICT_START")]
    ensures CompletedData(data) == map["event" := JStr("PREDICT_COMPLETED"), "result" := JObj(data)]
    ensures FailedData(data) == map["event" := JStr("PREDICT_FAILED"), "error" := JObj(data)]
    ensures ResultData(json, path).Keys == {"json", "path"}
    ensures ResultData(json, path)["json"] == json && ResultData(json, path)["path"] == OptionalString(path)
  {
    assert Merge(map[], data) == data;
  }

  /** The kind carried by an envelope: its `data.event`, if any. */
  function EventOf(envelope: Dict): Option<Json>
  {
    if "data" in envelope then Get(envelope["data"], "event") else None
  }

  const AsyncFalse: string := "?async=false"
  const AsyncTrue: string := "?async=true"

  /** The bridge URL `target/topics/<topic>?async=…`; `wait` asks for a synchronous acknowledgement. */
  function Url(target: string, topic: string, wait: bool): string
  {
    target + "/topics/" + topic + (if wait then AsyncFalse else AsyncTrue)
  }

  /** Splits a bridge URL for a known target back into its topic and `wait` flag. */
  function SplitUrl(url: string, target: string): Option<(string, bool)>
  {
    var prefix := target + "/topics/";
    if |url| < |prefix| || url[..|prefix|] != prefix then None
    else
      var rest := url[|prefix|..];
      if |rest| >= |AsyncFalse| && rest[|rest| - |AsyncFalse|..] == AsyncFalse then
        Some((rest[..|rest| - |AsyncFalse|], true))
      else if |rest| >= |AsyncTrue| && rest[|rest| - |AsyncTrue|..] == AsyncTrue then
        Some((rest[..|rest| - |AsyncTrue|], false))
      else
        None
  }

  /** Whatever the target and topic, the URL names exactly that topic and `wait` flag. */
  lemma UrlRoundTrip(target: string, topic: string, wait: bool)
    ensures SplitUrl(Url(target, topic, wait), target) == Some((topic, wait))
  {
    var prefix := target + "/topics/";
    var suffix := if wait then AsyncFalse else AsyncTrue;
    var url := Url(target, topic, wait);
    assert url == prefix + (topic + suffix);
    assert url[..|prefix|] == prefix;
    var rest := url[|prefix|..];
    assert rest == topic + suffix;
    if wait {
      assert rest[|rest| - |AsyncFalse|..] == AsyncFalse;
      assert rest[..|rest| - |AsyncFalse|] == topic;
    } else {
      if |rest| >= |AsyncFalse| {
        assert rest[|rest| - 4] == 't';
        assert rest[|rest| - |AsyncFalse|..][8] != AsyncFalse[8];
      }
      assert rest[|rest| - |AsyncTrue|..] == AsyncTrue;
      assert rest[..|rest| - |AsyncTrue|] == topic;
    }
  }

  /** The path the test client posts to: the topic path without host or query. */
  function TestPath(topic: string): string
  {
    "/topics/" + topic
  }

  /** One record of a bridge batch. */
  datatype Record = Record(key: Json, value: Json)

  /** The wire body `{"records": [{"key": key, "value": value}]}`. */
  function WireBody(key: Json, value: Json): Json
  {
    JObj(map["records" := JArr([JObj(map["key" := key, "value" := value])])])
  }

  /** The wire body is a batch of exactly one record, with that key and value. */
  lemma WireBodyRoundTrip(key: Json, value: Json)
    ensures RecordsOf(WireBody(key, value)) == Some([Record(key, value)])
  {
    var items := [JObj(map["key" := key, "value" := value])];
    assert Get(WireBody(key, value), "records") == Some(JArr(items));
    assert items[1..] == [];
    assert Get(items[0], "key") == Some(key) && Get(items[0], "value") == Some(value);
    assert DecodeRecords(items[1..]) == Some([]);
    assert [Record(key, value)] + [] == [Record(key, value)];
  }

  /** Reads the records of a bridge batch; the partner of `WireBody`. */
  function RecordsOf(body: Json): Option<seq<Record>>
  {
    match Get(body, "records")
    case Some(JArr(items)) => DecodeRecords(items)
    case _ => None
  }

  function DecodeRecords(items: seq<Json>): Option<seq<Record>>
  {
    if items == [] then Some([])
    else
      var key, value := Get(items[0], "key"), Get(items[0], "value");
      match DecodeRecords(items[1..])
      case Some(rest) =>
        if key.Some? && value.Some? then Some([Record(key.value, value.value)] + rest) else None
      case None => None
  }
}
