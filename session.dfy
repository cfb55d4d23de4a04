/**
 * `dsr_model_sdk/session.py`: one session of lifecycle events.
 *
 * The specification side is a pure state machine: `Emit` builds the topic and
 * envelope of a lifecycle call, `Deliver` is the closed-session gate of
 * `_delivery`, `Step` is one call and `Run` a sequence of calls. The class
 * `Session` is the object the application holds; every one of its methods is
 * proved to take exactly the step `Step` describes.
 *
 * The outbound side effect (a detached thread, or a post through the test
 * client) is recorded in the ghost log `sent`. The envelope snapshots the
 * session dict when it is built; see the README about Python's aliasing.
 */
module Session {
  import opened JsonValue
  import opened Envelope

  /**
   * The in-process test client: posting to a path with a JSON body yields the
   * application's JSON response. The application's own behaviour is not part
   * of this model, so it is an arbitrary function.
   */
  datatype TestClient = TestClient(respond: (string, Json) -> Json)

  /** The fields of a session fixed at construction. */
  datatype SessionConfig = SessionConfig(
    sdkMetadata: Dict,
    target: string,
    timeout: real,
    testClient: Option<TestClient>,
    topics: TopicNames)

  /** The session dict and the `closed` flag. */
  datatype SessionState = SessionState(info: SessionInfo, closed: bool)

  /** One call on a session; `now` is the `datetime.now()` a terminal call reads. */
  datatype Call =
    | StartCall(headers: Headers)
    | ProcessingCall(headers: Headers, data: Dict)
    | CompletedCall(headers: Headers, data: Dict, now: string)
    | FailedCall(headers: Headers, error: Dict, now: string)
    | ResultCall(headers: Headers, json: Json, path: Option<string>)
    | CloseCall

  /** What a lifecycle call returns to its caller, or the `KeyError` it raises. */
  datatype Outcome = Returned(value: Option<Json>) | KeyErrorRaised

  /** An outbound send: a detached thread posting to the bridge, or a test-client post. */
  datatype Send = Spawn(url: string, body: Json) | TestPost(path: string, content: Json)

  datatype Effect = Effect(outcome: Outcome, send: Option<Send>)

  datatype Emission = Emission(topic: string, envelope: Dict)

  datatype Transition = Transition(next: SessionState, effect: Effect)

  function SendList(send: Option<Send>): seq<Send>
  {
    match send
    case None => []
    case Some(s) => [s]
  }

  /** `self.thread` after a delivery: the newest spawned thread, if any. */
  function ThreadAfter(thread: Option<Send>, send: Option<Send>): Option<Send>
  {
    if send.Some? && send.value.Spawn? then send else thread
  }

  function IsTerminal(call: Call): bool
  {
    call.CompletedCall? || call.FailedCall?
  }

  /** The session dict after a call: `completed` and `failed` (re)write `end`. */
  function EndWritten(info: SessionInfo, call: Call): SessionInfo
  {
    match call
    case CompletedCall(_, _, now) => info.(end := Some(now))
    case FailedCall(_, _, now) => info.(end := Some(now))
    case _ => info
  }

  /** The `data` dict of a lifecycle call. */
  function Payload(call: Call): Dict
    requires !call.CloseCall?
  {
    match call
    case StartCall(_) => StartData()
    case ProcessingCall(_, data) => ProcessingData(data)
    case CompletedCall(_, data, _) => CompletedData(data)
    case FailedCall(_, error, _) => FailedData(error)
    case ResultCall(_, json, path) => ResultData(json, path)
  }

  /**
   * The topic and envelope `sdk_metadata | body` of a lifecycle call: `result`
   * is a `RESULT` on the result topic, every other call an `EVENT` on the
   * event topic.
   */
  function Emit(cfg: SessionConfig, info: SessionInfo, call: Call): Emission
    requires !call.CloseCall?
  {
    var kind := if call.ResultCall? then RESULT else EVENT;
    var topic := if call.ResultCall? then cfg.topics.result else cfg.topics.event;
    Emission(topic, Merge(cfg.sdkMetadata, Body(kind, info, Payload(call), call.headers)))
  }

  /**
   * `_delivery`: nothing on a closed session; otherwise `sdk_metadata['id']`
   * is read (a `KeyError` if absent), then the test client receives the bare
   * envelope, or else one detached thread posts the one-record wire body.
   */
  function Deliver(cfg: SessionConfig, closed: bool, topic: string, envelope: Dict, wait: bool): Effect
  {
    if closed then Effect(Returned(None), None)
    else if "id" !in cfg.sdkMetadata then Effect(KeyErrorRaised, None)
    else
      match cfg.testClient
      case Some(client) =>
        Effect(Returned(Some(client.respond(TestPath(topic), JObj(envelope)))),
               Some(TestPost(TestPath(topic), JObj(envelope))))
      case None =>
        Effect(Returned(None),
               Some(Spawn(Url(cfg.target, topic, wait), WireBody(cfg.sdkMetadata["id"], JObj(envelope)))))
  }

  /** One call on a session. Every caller of `_delivery` leaves `wait` at its default. */
  function Step(cfg: SessionConfig, st: SessionState, call: Call): Transition
  {
    if call.CloseCall? then
      Transition(st.(closed := true), Effect(Returned(None), None))
    else
      var info := EndWritten(st.info, call);
      var em := Emit(cfg, info, call);
      Transition(st.(info := info), Deliver(cfg, st.closed, em.topic, em.envelope, true))
  }

  /** The state after a sequence of calls, with every send and every outcome in order. */
  datatype Trace = Trace(final: SessionState, sends: seq<Send>, outcomes: seq<Outcome>)

  /** A session as a transition function over calls. */
  type Machine = (SessionState, Call) -> Transition

  function SessionMachine(cfg: SessionConfig): Machine
  {
    (st: SessionState, call: Call) => Step(cfg, st, call)
  }

  /** Takes the calls one at a time, each from the state the previous one left. */
  function Fold(machine: Machine, st: SessionState, calls: seq<Call>): (tr: Trace)
    ensures |tr.outcomes| == |calls| && |tr.sends| <= |calls|
    decreases |calls|
  {
    if calls == [] then Trace(st, [], [])
    else
      var t := machine(st, calls[0]);
      var rest := Fold(machine, t.next, calls[1..]);
      Trace(rest.final, SendList(t.effect.send) + rest.sends, [t.effect.outcome] + rest.outcomes)
  }

  /** A sequence of calls on one session. */
  function Run(cfg: SessionConfig, st: SessionState, calls: seq<Call>): Trace
  {
    Fold(SessionMachine(cfg), st, calls)
  }

  /** A session object, as `DataSpireSDK.newSession` hands it out. */
  class Session {
    const sdkMetadata: Dict
    const target: string
    const timeout: real
    const testClient: Option<TestClient>
    const topics: TopicNames
    /** `session["id"]` and `session["start"]`, never written after construction. */
    const id: string
    const start: string
    /** `session["end"]`. */
    var end: Option<string>
    var closed: bool
    /** `self.thread`: the last detached delivery started. */
    var thread: Option<Send>
    /** Every outbound send so far, oldest first. */
    ghost var sent: seq<Send>

    function Config(): SessionConfig
    {
      SessionConfig(sdkMetadata, target, timeout, testClient, topics)
    }

    function Info(): SessionInfo
      reads this
    {
      SessionInfo(id, start, end)
    }

    function State(): SessionState
      reads this
    {
      SessionState(Info(), closed)
    }

    /** The new state, outcome, send log and thread are exactly those of `Step` on `call`. */
    ghost predicate Performed(st0: SessionState, sent0: seq<Send>, thread0: Option<Send>, call: Call, out: Outcome)
      reads this
    {
      var t := Step(Config(), st0, call);
      && State() == t.next
      && out == t.effect.outcome
      && sent == sent0 + SendList(t.effect.send)
      && thread == ThreadAfter(thread0, t.effect.send)
    }

    /** `sessionId` and `now` stand for `uuid4().hex` and `datetime.now()`. */
    constructor (sdkMetadata: Dict, target: string, topics: TopicNames, sessionId: string, now: string,
                 timeout: real := 10.0, testClient: Option<TestClient> := None)
      ensures Config() == SessionConfig(sdkMetadata, target, timeout, testClient, topics)
      ensures State() == SessionState(SessionInfo(sessionId, now, None), false)
      ensures thread == None && sent == []
    {
      this.sdkMetadata := sdkMetadata;
      this.target := target;
      this.topics := topics;
      this.id := sessionId;
      this.start := now;
      this.end := None;
      this.thread := None;
      this.timeout := timeout;
      this.closed := false;
      this.testClient := testClient;
      this.sent := [];
    }

    method Start(headers: Headers) returns (out: Outcome)
      modifies this
      ensures Performed(old(State()), old(sent), old(thread), StartCall(headers), out)
    {
      var body := Body(EVENT, Info(), StartData(), headers);
      assert Emit(Config(), Info(), StartCall(headers)) == Emission(topics.event, Merge(sdkMetadata, body));
      out := Delivery(topics.event, Merge(sdkMetadata, body));
    }

    method Processing(headers: Headers, data: Dict := map[]) returns (out: Outcome)
      modifies this
      ensures Performed(old(State()), old(sent), old(thread), ProcessingCall(headers, data), out)
    {
      var body := Body(EVENT, Info(), ProcessingData(data), headers);
      assert Emit(Config(), Info(), ProcessingCall(headers, data)) == Emission(topics.event, Merge(sdkMetadata, body));
      out := Delivery(topics.event, Merge(sdkMetadata, body));
    }

    /** Writes `end` before the closed check, so even a closed session gets a new end stamp. */
    method Completed(headers: Headers, now: string, data: Dict := map[]) returns (out: Outcome)
      modifies this
      ensures Performed(old(State()), old(sent), old(thread), CompletedCall(headers, data, now), out)
    {
      end := Some(now);
      var body := Body(EVENT, Info(), CompletedData(data), headers);
      assert Emit(Config(), Info(), CompletedCall(headers, data, now)) == Emission(topics.event, Merge(sdkMetadata, body));
      out := Delivery(topics.event, Merge(sdkMetadata, body));
    }

    method Failed(headers: Headers, now: string, error: Dict := map[]) returns (out: Outcome)
      modifies this
      ensures Performed(old(State()), old(sent), old(thread), FailedCall(headers, error, now), out)
    {
      end := Some(now);
      var body := Body(EVENT, Info(), FailedData(error), headers);
      assert Emit(Config(), Info(), FailedCall(headers, error, now)) == Emission(topics.event, Merge(sdkMetadata, body));
      out := Delivery(topics.event, Merge(sdkMetadata, body));
    }

    method Result(headers: Headers, json: Json := JNull, path: Option<string> := None) returns (out: Outcome)
      modifies this
      ensures Performed(old(State()), old(sent), old(thread), ResultCall(headers, json, path), out)
    {
      var body := Body(RESULT, Info(), ResultData(json, path), headers);
      assert Emit(Config(), Info(), ResultCall(headers, json, path)) == Emission(topics.result, Merge(sdkMetadata, body));
      out := Delivery(topics.result, Merge(sdkMetadata, body));
    }

    method Close()
      modifies this
      ensures Performed(old(State()), old(sent), old(thread), CloseCall, Returned(None))
    {
      closed := true;
    }

    /** `_delivery`, proved to have exactly the effect `Deliver` describes. */
    method Delivery(topic: string, data: Dict, wait: bool := true) returns (out: Outcome)
      modifies this`thread, this`sent
      ensures var e := Deliver(Config(), closed, topic, data, wait);
        out == e.outcome && sent == old(sent) + SendList(e.send) && thread == ThreadAfter(old(thread), e.send)
    {
      if closed {
        return Returned(None);
      }
      var url := Url(target, topic, wait);
      if "id" !in sdkMetadata {
        return KeyErrorRaised;
      }
      var body := WireBody(sdkMetadata["id"], JObj(data));
      match testClient
      case Some(client) =>
        var response := client.respond(TestPath(topic), JObj(data));
        sent := sent + [TestPost(TestPath(topic), JObj(data))];
        out := Returned(Some(response));
      case None =>
        thread := Some(Spawn(url, body));
        sent := sent + [Spawn(url, body)];
        out := Returned(None);
    }
  }
}
