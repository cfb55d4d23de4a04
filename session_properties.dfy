/**
 * Properties of the session state machine of `Session`: the delivery gate,
 * the envelope of every lifecycle call, what one call does to the session
 * dict and the `closed` flag, and what a whole sequence of calls sends.
 */
module SessionProperties {
  import opened JsonValue
  import opened Envelope
  import opened Session

  /** The envelope a send carries: the bare test-client content, or the value of a one-record batch. */
  function SentEnvelope(send: Send): Option<Json>
  {
    match send
    case TestPost(_, content) => Some(content)
    case Spawn(_, body) =>
      match RecordsOf(body)
      case Some(records) => if |records| == 1 then Some(records[0].value) else None
      case None => None
  }

  /** The `data.event` of a sent envelope. */
  function SentEvent(send: Send): Option<Json>
  {
    GetIn(GetIn(SentEnvelope(send), "data"), "event")
  }

  /** The `session.id` of a sent envelope. */
  function SentSessionId(send: Send): Option<Json>
  {
    GetIn(GetIn(SentEnvelope(send), "session"), "id")
  }

  // ---------------------------------------------------------------------------
  // The delivery gate of `_delivery`
  // ---------------------------------------------------------------------------

  /**
   * A closed session returns `None` and sends nothing. An open one reads
   * `sdk_metadata['id']` first and raises without sending if it is missing.
   * Otherwise it sends exactly once: the bare envelope to `/topics/<topic>`
   * through the test client, whose response it returns, or, without a test
   * client, one detached post of a single record keyed by the SDK id to the
   * bridge URL for that topic and `wait` flag, returning `None`.
   */
  lemma DeliveryGate(cfg: SessionConfig, closed: bool, topic: string, envelope: Dict, wait: bool)
    ensures var e := Deliver(cfg, closed, topic, envelope, wait);
      && (closed ==> e == Effect(Returned(None), None))
      && (!closed && "id" !in cfg.sdkMetadata ==> e == Effect(KeyErrorRaised, None))
      && (!closed && "id" in cfg.sdkMetadata ==>
            && |SendList(e.send)| == 1
            && SentEnvelope(e.send.value) == Some(JObj(envelope))
            && (cfg.testClient.Some? ==>
                  && e.send.value == TestPost("/topics/" + topic, JObj(envelope))
                  && e.outcome == Returned(Some(cfg.testClient.value.respond("/topics/" + topic, JObj(envelope)))))
            && (cfg.testClient.None? ==>
                  && e.send.value.Spawn?
                  && e.outcome == Returned(None)
                  && SplitUrl(e.send.value.url, cfg.target) == Some((topic, wait))
                  && RecordsOf(e.send.value.body) == Some([Record(cfg.sdkMetadata["id"], JObj(envelope))])))
  {
    UrlRoundTrip(cfg.target, topic, wait);
    if "id" in cfg.sdkMetadata {
      WireBodyRoundTrip(cfg.sdkMetadata["id"], JObj(envelope));
    }
  }

  // ---------------------------------------------------------------------------
  // The envelope of each lifecycle call
  // ---------------------------------------------------------------------------

  /**
   * Every envelope is the SDK metadata merged with the body: it has the keys
   * of both, the body's `type`, `session`, `data` and `extra` win a clash, and
   * every other metadata key passes through unchanged. The session snapshot and
   * the request headers read back exactly; `result` goes to the result topic
   * as a `RESULT`, every other call to the event topic as an `EVENT`.
   */
  lemma EnvelopeCommon(cfg: SessionConfig, info: SessionInfo, call: Call)
    requires !call.CloseCall?
    ensures var em := Emit(cfg, info, call);
      && em.envelope.Keys == cfg.sdkMetadata.Keys + BodyKeys
      && (forall k :: k in cfg.sdkMetadata && k !in BodyKeys ==> em.envelope[k] == cfg.sdkMetadata[k])
      && DecodeSession(em.envelope["session"]) == Some(info)
      && HeadersOf(em.envelope) == Some(call.headers)
      && em.topic == (if call.ResultCall? then cfg.topics.result else cfg.topics.event)
      && em.envelope["type"] == JStr(if call.ResultCall? then "RESULT" else "EVENT")
      && em.envelope["data"] == JObj(Payload(call))
  {
    var body := Body(if call.ResultCall? then RESULT else EVENT, info, Payload(call), call.headers);
    BodyReadsBack(if call.ResultCall? then RESULT else EVENT, info, Payload(call), call.headers);
    MergeRightBiased(cfg.sdkMetadata, body);
  }

  /**
   * The payload of each call: `start` carries only its kind; `processing`
   * carries the caller's data over its kind, so a caller's `"event"` wins;
   * `completed` and `failed` nest the caller's dict under `"result"` and
   * `"error"`; `result` carries exactly `json` and `path`.
   */
  lemma EnvelopePayload(cfg: SessionConfig, info: SessionInfo, call: Call)
    requires !call.CloseCall?
    ensures var env := Emit(cfg, info, call).envelope;
      && (call.StartCall? ==>
            env["data"] == JObj(map["event" := JStr("PREDICT_START")]))
      && (call.ProcessingCall? ==>
            && env["data"].JObj?
            && env["data"].fields.Keys == call.data.Keys + {"event"}
            && EventOf(env) == Some(if "event" in call.data then call.data["event"] else JStr("PREDICT_PROCESSING"))
            && (forall k :: k in call.data ==> env["data"].fields[k] == call.data[k]))
      && (call.CompletedCall? ==>
            env["data"] == JObj(map["event" := JStr("PREDICT_COMPLETED"), "result" := JObj(call.data)]))
      && (call.FailedCall? ==>
            env["data"] == JObj(map["event" := JStr("PREDICT_FAILED"), "error" := JObj(call.error)]))
      && (call.ResultCall? ==>
            env["data"] == JObj(map["json" := call.json, "path" := OptionalString(call.path)]))
  {
    EnvelopeCommon(cfg, info, call);
    match call
    case ProcessingCall(_, data) =>
      ProcessingOverrides(data);
    case CompletedCall(_, data, _) =>
      FixedPayloads(data, JNull, None);
    case FailedCall(_, error, _) =>
      FixedPayloads(error, JNull, None);
    case ResultCall(_, json, path) =>
      FixedPayloads(map[], json, path);
    case StartCall(_) =>
      FixedPayloads(map[], JNull, None);
  }

  // ---------------------------------------------------------------------------
  // One call
  // ---------------------------------------------------------------------------

  /**
   * One call never changes the session id or start stamp. `completed` and
   * `failed` set `end` to their stamp, open or closed and whatever it was
   * before; every other call leaves `end` alone. Only `close` sets `closed`,
   * and nothing clears it.
   */
  lemma StepState(cfg: SessionConfig, st: SessionState, call: Call)
    ensures var next := Step(cfg, st, call).next;
      && next.info.id == st.info.id && next.info.start == st.info.start
      && next.info.end == (if IsTerminal(call) then Some(call.now) else st.info.end)
      && next.closed == (st.closed || call.CloseCall?)
  {
  }

  /** `close` is idempotent: closing twice is closing once, and neither sends. */
  lemma CloseIdempotent(cfg: SessionConfig, st: SessionState)
    ensures var once := Step(cfg, st, CloseCall);
      && once.effect == Effect(Returned(None), None)
      && Step(cfg, once.next, CloseCall) == once
  {
  }

  /** The kind each call puts in `data.event`; `result` carries none. */
  lemma EventKind(cfg: SessionConfig, info: SessionInfo, call: Call)
    requires !call.CloseCall?
    ensures EventOf(Emit(cfg, info, call).envelope) ==
      match call
      case StartCall(_) => Some(JStr("PREDICT_START"))
      case ProcessingCall(_, data) => Some(if "event" in data then data["event"] else JStr("PREDICT_PROCESSING"))
      case CompletedCall(_, _, _) => Some(JStr("PREDICT_COMPLETED"))
      case FailedCall(_, _, _) => Some(JStr("PREDICT_FAILED"))
      case ResultCall(_, _, _) => None
  {
    EnvelopePayload(cfg, info, call);
  }

  /**
   * An open session with an SDK id sends exactly one envelope per lifecycle
   * call: the one `Emit` builds, stamped with the session's id, and through the
   * test client to that call's topic path.
   */
  lemma OpenCallSendsOnce(cfg: SessionConfig, st: SessionState, call: Call)
    requires !st.closed && "id" in cfg.sdkMetadata && !call.CloseCall?
    ensures var t := Step(cfg, st, call);
      var em := Emit(cfg, t.next.info, call);
      && |SendList(t.effect.send)| == 1
      && SentEnvelope(t.effect.send.value) == Some(JObj(em.envelope))
      && SentSessionId(t.effect.send.value) == Some(JStr(st.info.id))
      && SentEvent(t.effect.send.value) == EventOf(em.envelope)
      && (cfg.testClient.Some? ==> t.effect.send.value.TestPost? && t.effect.send.value.path == "/topics/" + em.topic)
  {
    var info := EndWritten(st.info, call);
    var em := Emit(cfg, info, call);
    DeliveryGate(cfg, st.closed, em.topic, em.envelope, true);
    EnvelopeCommon(cfg, info, call);
  }

  // ---------------------------------------------------------------------------
  // Sequences of calls
  // ---------------------------------------------------------------------------

  /** Folding `a` and then `b` from where `a` left off is folding `a + b`. */
  lemma {:induction false} FoldAppend(machine: Machine, st: SessionState, a: seq<Call>, b: seq<Call>)
    ensures Fold(machine, st, a + b).final == Fold(machine, Fold(machine, st, a).final, b).final
    ensures Fold(machine, st, a + b).sends == Fold(machine, st, a).sends + Fold(machine, Fold(machine, st, a).final, b).sends
    decreases |a|
  {
    if a == [] {
      assert a + b == b;
    } else {
      var ab := a + b;
      assert ab[0] == a[0] && ab[1..] == a[1..] + b;
      FoldAppend(machine, machine(st, a[0]).next, a[1..], b);
    }
  }

  /** Running `a` and then `b` from where `a` left off is running `a + b`. */
  lemma RunAppend(cfg: SessionConfig, st: SessionState, a: seq<Call>, b: seq<Call>)
    ensures Run(cfg, st, a + b).final == Run(cfg, Run(cfg, st, a).final, b).final
    ensures Run(cfg, st, a + b).sends == Run(cfg, st, a).sends + Run(cfg, Run(cfg, st, a).final, b).sends
  {
    FoldAppend(SessionMachine(cfg), st, a, b);
  }

  /** The first call of a run is one `Step`. */
  lemma RunCons(cfg: SessionConfig, st: SessionState, calls: seq<Call>)
    requires calls != []
    ensures var t := Step(cfg, st, calls[0]);
      && Run(cfg, st, calls).final == Run(cfg, t.next, calls[1..]).final
      && Run(cfg, st, calls).sends == SendList(t.effect.send) + Run(cfg, t.next, calls[1..]).sends
      && Run(cfg, st, calls).outcomes == [t.effect.outcome] + Run(cfg, t.next, calls[1..]).outcomes
  {
    assert SessionMachine(cfg)(st, calls[0]) == Step(cfg, st, calls[0]);
  }

  /** A closed session stays closed, sends nothing and every call returns `None`. */
  lemma {:induction false} ClosedRunIsSilent(cfg: SessionConfig, st: SessionState, calls: seq<Call>)
    requires st.closed
    ensures var tr := Run(cfg, st, calls);
      && tr.final.closed
      && tr.sends == []
      && forall i :: 0 <= i < |tr.outcomes| ==> tr.outcomes[i] == Returned(None)
    decreases |calls|
  {
    if calls != [] {
      ClosedRunIsSilent(cfg, Step(cfg, st, calls[0]).next, calls[1..]);
    }
  }

  /** Whatever came before, nothing after `close` is sent. */
  lemma CloseSilencesRest(cfg: SessionConfig, st: SessionState, before: seq<Call>, after: seq<Call>)
    ensures Run(cfg, st, before + [CloseCall] + after).sends == Run(cfg, st, before).sends
    ensures Run(cfg, st, before + [CloseCall] + after).final.closed
  {
    var r1 := Run(cfg, st, before);
    RunAppend(cfg, st, before, [CloseCall]);
    var r2 := Run(cfg, st, before + [CloseCall]);
    assert r2.sends == r1.sends;
    RunAppend(cfg, st, before + [CloseCall], after);
    ClosedRunIsSilent(cfg, r2.final, after);
  }

  /** A machine whose steps close exactly on `close` ends closed exactly when it started so or met `close`. */
  lemma {:induction false} FoldClosed(m: Machine, st: SessionState, calls: seq<Call>)
    requires forall s: SessionState, c: Call :: m(s, c).next.closed == (s.closed || c.CloseCall?)
    ensures Fold(m, st, calls).final.closed <==> st.closed || CloseCall in calls
    decreases |calls|
  {
    if calls != [] {
      FoldClosed(m, m(st, calls[0]).next, calls[1..]);
      assert calls == [calls[0]] + calls[1..];
    }
  }

  /** A session ends closed exactly when it started closed or `close` was among the calls. */
  lemma ClosedIffCloseCalled(cfg: SessionConfig, st: SessionState, calls: seq<Call>)
    ensures Run(cfg, st, calls).final.closed <==> st.closed || CloseCall in calls
  {
    var m := SessionMachine(cfg);
    forall s: SessionState, c: Call
      ensures m(s, c).next.closed == (s.closed || c.CloseCall?)
    {
      StepState(cfg, s, c);
    }
    FoldClosed(m, st, calls);
  }

  /** No sequence of calls changes the session id or start stamp. */
  lemma {:induction false} IdentityFixed(cfg: SessionConfig, st: SessionState, calls: seq<Call>)
    ensures Run(cfg, st, calls).final.info.id == st.info.id
    ensures Run(cfg, st, calls).final.info.start == st.info.start
    decreases |calls|
  {
    if calls != [] {
      IdentityFixed(cfg, Step(cfg, st, calls[0]).next, calls[1..]);
    }
  }

  /** Calls other than `completed` and `failed` never touch `end`. */
  lemma {:induction false} NonTerminalKeepsEnd(cfg: SessionConfig, st: SessionState, calls: seq<Call>)
    requires forall i :: 0 <= i < |calls| ==> !IsTerminal(calls[i])
    ensures Run(cfg, st, calls).final.info.end == st.info.end
    decreases |calls|
  {
    if calls != [] {
      NonTerminalKeepsEnd(cfg, Step(cfg, st, calls[0]).next, calls[1..]);
    }
  }

  /**
   * After any history, open or closed, the last `completed` or `failed`
   * decides `end`: its stamp overwrites every earlier one.
   */
  lemma LastTerminalDecidesEnd(cfg: SessionConfig, st: SessionState, before: seq<Call>, terminal: Call, after: seq<Call>)
    requires IsTerminal(terminal)
    requires forall i :: 0 <= i < |after| ==> !IsTerminal(after[i])
    ensures Run(cfg, st, before + [terminal] + after).final.info.end == Some(terminal.now)
  {
    RunAppend(cfg, st, before, [terminal]);
    var prior := Run(cfg, st, before).final;
    RunCons(cfg, prior, [terminal]);
    StepState(cfg, prior, terminal);
    var r := Run(cfg, st, before + [terminal]);
    RunAppend(cfg, st, before + [terminal], after);
    NonTerminalKeepsEnd(cfg, r.final, after);
  }

  /** Every envelope a session sends carries that session's id. */
  lemma {:induction false} SendsCarrySessionId(cfg: SessionConfig, st: SessionState, calls: seq<Call>)
    ensures var tr := Run(cfg, st, calls);
      forall i :: 0 <= i < |tr.sends| ==> SentSessionId(tr.sends[i]) == Some(JStr(st.info.id))
    decreases |calls|
  {
    if calls != [] {
      var t := Step(cfg, st, calls[0]);
      RunCons(cfg, st, calls);
      StepState(cfg, st, calls[0]);
      SendsCarrySessionId(cfg, t.next, calls[1..]);
      if !st.closed && "id" in cfg.sdkMetadata && !calls[0].CloseCall? {
        OpenCallSendsOnce(cfg, st, calls[0]);
      } else {
        assert t.effect.send == None;
      }
    }
  }

  predicate PostedTo(send: Send, path: string)
  {
    send.TestPost? && send.path == path
  }

  /** One step of the three-call scenario below: open stays open, one test post of the given kind. */
  lemma TestClientStep(cfg: SessionConfig, st: SessionState, call: Call, kind: string)
    requires cfg.testClient.Some? && "id" in cfg.sdkMetadata && !st.closed
    requires || (call.StartCall? && kind == "PREDICT_START")
             || (call.ProcessingCall? && "event" !in call.data && kind == "PREDICT_PROCESSING")
             || (call.CompletedCall? && kind == "PREDICT_COMPLETED")
    ensures var t := Step(cfg, st, call);
      && !t.next.closed && t.next.info.id == st.info.id
      && t.effect.send.Some? && PostedTo(t.effect.send.value, "/topics/" + cfg.topics.event)
      && SentEvent(t.effect.send.value) == Some(JStr(kind))
  {
    StepState(cfg, st, call);
    OpenCallSendsOnce(cfg, st, call);
    EnvelopeCommon(cfg, EndWritten(st.info, call), call);
    EventKind(cfg, EndWritten(st.info, call), call);
  }

  /** Three calls that each send once send exactly those three, in order. */
  lemma FoldThree(m: Machine, st: SessionState, c1: Call, c2: Call, c3: Call)
    requires var t1 := m(st, c1); var t2 := m(t1.next, c2); var t3 := m(t2.next, c3);
      t1.effect.send.Some? && t2.effect.send.Some? && t3.effect.send.Some?
    ensures var t1 := m(st, c1); var t2 := m(t1.next, c2); var t3 := m(t2.next, c3);
      Fold(m, st, [c1, c2, c3]).sends == [t1.effect.send.value, t2.effect.send.value, t3.effect.send.value]
  {
    var calls := [c1, c2, c3];
    var t1 := m(st, c1);
    var t2 := m(t1.next, c2);
    var t3 := m(t2.next, c3);
    assert calls[1..] == [c2, c3] && calls[1..][1..] == [c3] && calls[1..][1..][1..] == [];
    assert Fold(m, t2.next, [c3]).sends == [t3.effect.send.value];
    assert Fold(m, t1.next, [c2, c3]).sends == [t2.effect.send.value] + Fold(m, t2.next, [c3]).sends;
    assert Fold(m, st, calls).sends == [t1.effect.send.value] + Fold(m, t1.next, [c2, c3]).sends;
  }

  /**
   * Through the test client, `start`, `processing` and `completed` on an open
   * session deliver exactly three envelopes to the event topic, with kinds
   * `PREDICT_START`, `PREDICT_PROCESSING`, `PREDICT_COMPLETED` in that order,
   * all carrying the same session id.
   */
  lemma StartProcessingCompleted(cfg: SessionConfig, st: SessionState,
                                 h1: Headers, h2: Headers, progress: Dict, h3: Headers, result: Dict, now: string)
    requires cfg.testClient.Some? && "id" in cfg.sdkMetadata && !st.closed
    requires "event" !in progress
    ensures var sends := Run(cfg, st, [StartCall(h1), ProcessingCall(h2, progress), CompletedCall(h3, result, now)]).sends;
      && |sends| == 3
      && PostedTo(sends[0], "/topics/" + cfg.topics.event)
      && PostedTo(sends[1], "/topics/" + cfg.topics.event)
      && PostedTo(sends[2], "/topics/" + cfg.topics.event)
      && SentEvent(sends[0]) == Some(JStr("PREDICT_START"))
      && SentEvent(sends[1]) == Some(JStr("PREDICT_PROCESSING"))
      && SentEvent(sends[2]) == Some(JStr("PREDICT_COMPLETED"))
      && (forall i :: 0 <= i < 3 ==> SentSessionId(sends[i]) == Some(JStr(st.info.id)))
  {
    var c1, c2, c3 := StartCall(h1), ProcessingCall(h2, progress), CompletedCall(h3, result, now);
    var t1 := Step(cfg, st, c1);
    var t2 := Step(cfg, t1.next, c2);
    var t3 := Step(cfg, t2.next, c3);
    TestClientStep(cfg, st, c1, "PREDICT_START");
    TestClientStep(cfg, t1.next, c2, "PREDICT_PROCESSING");
    TestClientStep(cfg, t2.next, c3, "PREDICT_COMPLETED");
    var m := SessionMachine(cfg);
    assert m(st, c1) == t1 && m(t1.next, c2) == t2 && m(t2.next, c3) == t3;
    FoldThree(m, st, c1, c2, c3);
    SendsCarrySessionId(cfg, st, [c1, c2, c3]);
    var sends := Run(cfg, st, [c1, c2, c3]).sends;
    var s1, s2, s3 := t1.effect.send.value, t2.effect.send.value, t3.effect.send.value;
    assert sends == [s1, s2, s3];
    assert SentEvent(s1) == Some(JStr("PREDICT_START"));
    assert SentEvent(s2) == Some(JStr("PREDICT_PROCESSING"));
    assert SentEvent(s3) == Some(JStr("PREDICT_COMPLETED"));
    assert PostedTo(s1, "/topics/" + cfg.topics.event) && PostedTo(s2, "/topics/" + cfg.topics.event) && PostedTo(s3, "/topics/" + cfg.topics.event);
  }
}
