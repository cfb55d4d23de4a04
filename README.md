# dsr-model-sdk in Dafny

A model of the client side of the DataSpire model SDK. A model server wraps
each prediction in a session. The session reports its lifecycle (`start`,
`processing`, `completed`, `failed`) and its `result` as JSON envelopes to a
Kafka HTTP bridge. The SDK object holds the service's identity and the bridge
target. It starts a periodic health reporter at most once and hands out
sessions.

Files:

- `json_value.dfy` (`JsonValue`): JSON values, Python dicts as `map<string, Json>`, and an `Option`.
- `envelope.dfy` (`Envelope`): the pure data shaping of `session.py`:
  - the session dict, the request headers, the body of each call and the right-biased merge `sdk_metadata | body`;
  - the bridge URL and the one-record wire body;
  - a decoder beside each builder, with a round-trip lemma.
- `session.dfy` (`Session`): two parts.
  - A specification state machine: `Emit` is the envelope and topic of a call, `Deliver` the gate of `_delivery`, `Step` one call and `Run` a sequence of calls.
  - The class `Session`, whose methods update `end`, `closed`, `thread` and a ghost log `sent` of outbound sends. Each method is proved to take exactly the step `Step` describes.
- `session_properties.dfy` (`SessionProperties`): what one call sends and does to the session, and what a whole sequence of calls does. This covers close suppression, the end stamp, identity and the three-call test-client scenario.
- `dsr_sdk.dfy` (`DataSpire`): the scheduler reduced to jobs and a start count, the `ping_worker` guard, the SDK class and its `newSession` factory.

How the model stands in for the outside world:

- `uuid4().hex` and `datetime.now()` are parameters (`sessionId`, `now`).
- The topic names come from a module that is not part of this model, so they are a `TopicNames` value.
- The FastAPI test client is a pure function from a path and a JSON body to a JSON response.
- A lifecycle method that reads a missing `sdk_metadata['id']` raises `KeyError` in Python. Here it returns `KeyErrorRaised`, and nothing is sent.

The end stamp has no write-once policy:

- `completed` and `failed` assign `end` unconditionally, and before the closed check (`session.py` lines 71, 87 and 121).
- So every terminal call overwrites it, even on a closed session.
- `StepState` and `LastTerminalDecidesEnd` state this.

The envelope's `"session"` entry is the very dict object `self.session` in Python, and it is serialised only later, in the delivery thread. The model snapshots the session dict at the moment the envelope is built. That is a modelling choice: the Python code does not guarantee it, and a later `completed` or `failed` could change what an in-flight thread sends. The same holds for caller data: `result` puts the caller's `json` object into the envelope as it is, and `processing`, `completed` and `failed` copy only the top level of `data` or `error`, so nested values stay shared with the caller. The model snapshots all of them at build time.

## Model

| member | source | states |
|---|---|---|
| Envelope.SessionRoundTrip | dsr_model_sdk/session.py:29-33 | the session dict (id, start, end or null) decodes back to exactly the session it was built from |
| Envelope.HeadersRoundTrip | dsr_model_sdk/session.py:48-50 | the request headers placed under `extra.headers` decode back to the same header map |
| Envelope.Body | dsr_model_sdk/session.py:42-52 | every lifecycle body has exactly the keys `type`, `session`, `data`, `extra` |
| Envelope.BodyReadsBack | dsr_model_sdk/session.py:42-52 | a body reads back as its message type name, its session snapshot, its payload and its request headers |
| Envelope.MergeRightBiased | dsr_model_sdk/session.py:54 | `meta \| body` has the keys of both; on a clash the body value wins; other metadata keys pass through unchanged |
| Envelope.ProcessingOverrides | dsr_model_sdk/session.py:60-62 | the processing payload has the caller's keys plus `event`; every caller value is kept; a caller `event` replaces `PREDICT_PROCESSING` |
| Envelope.FixedPayloads | dsr_model_sdk/session.py:45-108 | `start` carries exactly `{event: PREDICT_START}`; `completed`/`failed` carry their kind and the caller's dict unchanged under `result`/`error`; `result` carries exactly `json` and `path` |
| Envelope.UrlRoundTrip | dsr_model_sdk/session.py:125-126 | for any target and topic, the bridge URL splits back into that topic and that `wait` flag (`?async=false` when waiting, `?async=true` otherwise) |
| Envelope.WireBodyRoundTrip | dsr_model_sdk/session.py:127-134 | the wire body is a batch of exactly one record with the given key and value |
| Session.Session.constructor | dsr_model_sdk/session.py:20-37 | a new session keeps the metadata, target, timeout (default 10) and test client given; it is open, with the given id and start stamp, no end stamp, no thread and nothing sent |
| Session.Session.Start | dsr_model_sdk/session.py:39-54 | state, outcome, thread and send log afterwards are exactly those of `Step` on a start call (an `EVENT` of kind `PREDICT_START` on the event topic) |
| Session.Session.Processing | dsr_model_sdk/session.py:56-68 | state, outcome, thread and send log afterwards are exactly those of `Step` on a processing call |
| Session.Session.Completed | dsr_model_sdk/session.py:70-84 | writes the end stamp, then state, outcome, thread and send log are exactly those of `Step` on a completed call |
| Session.Session.Failed | dsr_model_sdk/session.py:86-100 | writes the end stamp, then state, outcome, thread and send log are exactly those of `Step` on a failed call |
| Session.Session.Result | dsr_model_sdk/session.py:102-115 | state, outcome, thread and send log afterwards are exactly those of `Step` on a result call (a `RESULT` on the result topic) |
| Session.Session.Close | dsr_model_sdk/session.py:117-118 | sets `closed`, changes nothing else and sends nothing |
| Session.Session.Delivery | dsr_model_sdk/session.py:120-143 | the outcome, the new thread and the new send log are those of the gate `Deliver` for the current `closed` flag |
| SessionProperties.DeliveryGate | dsr_model_sdk/session.py:120-143 | about `Session.Deliver`, the gate of `_delivery` (`session.py` lines 120-143). Closed: returns None and sends nothing. Open without an SDK id: raises and sends nothing. Open with an id: exactly one send. Through the test client it is the bare envelope to `/topics/<topic>` and the response is returned. Otherwise it is one thread whose URL names the topic and `wait` flag and whose body is one record keyed by the SDK id, and None is returned |
| SessionProperties.EnvelopeCommon | dsr_model_sdk/session.py:42-115 | the envelope has the keys of metadata and body; body keys win; other metadata keys pass through. The session and headers read back. `result` is a `RESULT` on the result topic; every other call is an `EVENT` on the event topic |
| SessionProperties.EnvelopePayload | dsr_model_sdk/session.py:45-108 | the exact `data` of each call in the envelope, including the caller's override of `event` in `processing` |
| SessionProperties.EventKind | dsr_model_sdk/session.py:45-94 | the `data.event` of each call's envelope: `PREDICT_START`, `PREDICT_PROCESSING` (or the caller's), `PREDICT_COMPLETED`, `PREDICT_FAILED`; none for `result` |
| SessionProperties.StepState | dsr_model_sdk/session.py:39-123 | about `Session.Step`, one lifecycle call or `close` (`session.py` lines 39-123). No call changes id or start. `completed`/`failed` set end to their stamp whatever it was, open or closed; other calls leave end alone. `closed` becomes true only by `close` and never returns to false |
| SessionProperties.CloseIdempotent | dsr_model_sdk/session.py:117-118 | `close` returns None, sends nothing, and closing twice is closing once |
| SessionProperties.OpenCallSendsOnce | dsr_model_sdk/session.py:120-143 | an open session with an SDK id sends exactly one envelope per lifecycle call: the one `Emit` builds, carrying the session id and the call's event kind, posted to the call's topic path through a test client |
| SessionProperties.ClosedRunIsSilent | dsr_model_sdk/session.py:117-123 | from a closed session, any sequence of calls stays closed, sends nothing and every call returns None |
| SessionProperties.CloseSilencesRest | dsr_model_sdk/session.py:117-123 | whatever came before, nothing after `close` is sent and the session ends closed |
| SessionProperties.ClosedIffCloseCalled | dsr_model_sdk/session.py:36-118 | a session ends closed exactly when it started closed or `close` was among the calls |
| SessionProperties.IdentityFixed | dsr_model_sdk/session.py:29-33 | no sequence of calls changes the session id or start stamp |
| SessionProperties.NonTerminalKeepsEnd | dsr_model_sdk/session.py:39-118 | a sequence of calls without `completed`/`failed` leaves the end stamp as it was |
| SessionProperties.LastTerminalDecidesEnd | dsr_model_sdk/session.py:70-87 | after any history, the last `completed`/`failed` call's stamp is the end stamp: later terminal calls overwrite earlier ones |
| SessionProperties.SendsCarrySessionId | dsr_model_sdk/session.py:44-105 | every envelope a session sends, over any sequence of calls, carries that session's id |
| SessionProperties.TestClientStep | dsr_model_sdk/session.py:136-138 | through the test client, an open `start`, `processing` or `completed` keeps the session open and the id unchanged. It posts to the event topic path with the expected kind |
| SessionProperties.StartProcessingCompleted | dsr_model_sdk/session.py:39-84 | through the test client, `start`, `processing`, `completed` on an open session send exactly three envelopes. All go to the event topic path, with kinds start, processing, completed in that order, and all carry the same session id |
| DataSpire.Scheduler.AddJob | dsr_model_sdk/dsr_sdk.py:31 | registering a job appends it to the scheduler's jobs |
| DataSpire.Scheduler.Start | dsr_model_sdk/dsr_sdk.py:39 | a scheduler may be started only when it has never been started, and is then started once |
| DataSpire.StartsAtMostOnce | dsr_model_sdk/dsr_sdk.py:34-41 | about `DataSpire.HealthGuard`, one `start_health_worker` decision (`dsr_sdk.py` lines 34-41), repeated. Over any number of `start_health_worker` calls the scheduler is started at most once. It is started exactly when `ping_worker` began at 0 and a call was made. `ping_worker` ends at 1 from 0 and is otherwise unchanged |
| DataSpire.DataSpireSDK.constructor | dsr_model_sdk/dsr_sdk.py:17-32 | stores id, name, target (the in-cluster bridge by default) and test client as given. With `health_worker` it registers the 10-second, 8-instance health job for `target/topics/<health topic>` and starts the scheduler once; without it, no job and no start |
| DataSpire.DataSpireSDK.StartHealthWorker | dsr_model_sdk/dsr_sdk.py:34-41 | from `ping_worker == 0` it starts the scheduler and sets the counter to 1. From a positive counter it changes nothing. The scheduler's start count always equals the counter and is at most 1 |
| DataSpire.DataSpireSDK.NewSession | dsr_model_sdk/dsr_sdk.py:43-44 | a fresh, open session with metadata exactly `{id, name}` of the SDK, the SDK's target and test client, timeout 10, no end stamp and nothing sent |
| DataSpire.FactoryEnvelope | dsr_model_sdk/dsr_sdk.py:43-44 | a factory-made session's envelopes carry the SDK id and name at the top level. Without a test client, each open lifecycle call returns None and puts one record on the wire, keyed by the SDK id |

## Left out

- `_executeRemote` (`session.py` lines 146-170) is not modelled. That covers the HTTP post, its headers, the retry adapter and the handling of HTTP errors. A send is a recorded `Spawn` of the URL and wire body, and it never fails toward the caller.
- Threads are not modelled. The daemon thread is the `Spawn` record kept in `thread` and in the ghost `sent` log, and nothing runs concurrently.
- Aliasing into envelopes that have not yet been serialised is not modelled. This covers `self.session`, the caller's `json` argument to `result`, and the nested values of `data`/`error`. The model snapshots all of them at build time (see above).
- The background scheduler's timing, and the health job `send_health_to_target` itself, are not modelled. The job is registered as a value, and the scheduler is reduced to its job list and start count.
- The topics, jobs, message, logger and singleton modules are not part of this model.
  - Topic names are parameters.
  - The singleton metaclass is not modelled. Because it allows one SDK per process, each SDK owns its scheduler instead of sharing the class-level one.
  - `ping_worker` is an instance field.
- `json.dumps` is not modelled. Request objects are reduced to their header map, and logging is dropped.
- The test client's own behaviour (the application under test) is an arbitrary function.
- Floating-point numbers in JSON are not modelled; `timeout` is a `real`.
- `Run` continues with the next call after a call that raised `KeyError`. This matches a caller that catches the exception and keeps using the session.
- `Session.Session.Delivery` records the send in the ghost `sent` log in the same step that builds it, so it does not model a post that is lost or reordered after a thread is started.
