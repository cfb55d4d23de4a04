/**
 * `dsr_model_sdk/dsr_sdk.py`: the SDK object an application creates once.
 *
 * It stores its id, name, bridge target and optional test client, registers
 * the periodic health job with a background scheduler, starts that scheduler
 * behind the `ping_worker` guard, and hands out sessions that carry its id and
 * name as metadata.
 */
module DataSpire {
  import opened JsonValue
  import opened Envelope
  import opened Session
  import opened SessionProperties

  /** The in-cluster Kafka bridge the SDK posts to unless told otherwise. */
  const DefaultTarget: string := "http://kafka-bridge-bridge-service.kafka.svc.cluster.local:8080"

  /** The health job runs every ten seconds, with at most eight runs overlapping. */
  const HealthIntervalSeconds: nat := 10
  const HealthMaxInstances: nat := 8

  /** The timeout every session from `newSession` gets: `Session`'s default. */
  const SessionTimeout: real := 10.0

  /** An interval job registered with the scheduler: the health sender and its arguments. */
  datatype Job = HealthJob(id: string, name: string, url: string, intervalSeconds: nat, maxInstances: nat)

  /** The health job of an SDK: its id, name and the health-topic path on its target. */
  function HealthJobFor(id: string, name: string, target: string, topics: TopicNames): Job
  {
    HealthJob(id, name, target + "/topics/" + topics.health, HealthIntervalSeconds, HealthMaxInstances)
  }

  /**
   * The background scheduler, reduced to its registered jobs and the number of
   * times it has been started. Starting a scheduler that is already running
   * raises, so `Start` demands that it has never been started.
   */
  class Scheduler {
    var jobs: seq<Job>
    var starts: nat

    constructor ()
      ensures jobs == [] && starts == 0
    {
      jobs := [];
      starts := 0;
    }

    method AddJob(job: Job)
      modifies this`jobs
      ensures jobs == old(jobs) + [job]
    {
      jobs := jobs + [job];
    }

    method Start()
      requires starts == 0
      modifies this`starts
      ensures starts == 1
    {
      starts := starts + 1;
    }
  }

  /** What `start_health_worker` does for a given `ping_worker`: the new counter, and whether it starts the scheduler. */
  datatype GuardStep = GuardStep(ping: nat, startsScheduler: bool)

  function HealthGuard(ping: nat): GuardStep
  {
    if ping > 0 then GuardStep(ping, false) else GuardStep(ping + 1, true)
  }

  /** `ping_worker` after `n` calls of `start_health_worker` from `ping`. */
  function PingAfter(ping: nat, n: nat): nat
    decreases n
  {
    if n == 0 then ping else PingAfter(HealthGuard(ping).ping, n - 1)
  }

  /** Starts of the scheduler over `n` guarded calls from `ping_worker == ping`. */
  function StartCount(ping: nat, n: nat): nat
    decreases n
  {
    if n == 0 then 0
    else (if HealthGuard(ping).startsScheduler then 1 else 0) + StartCount(HealthGuard(ping).ping, n - 1)
  }

  /**
   * The guard is a two-state machine: from 0 the first call starts the
   * scheduler and moves the counter to 1, and from any positive counter a
   * call changes nothing. So however many calls are made, the scheduler is
   * started at most once, exactly when the counter began at 0 and at least
   * one call was made, and the counter never exceeds 1 when it began at 0.
   */
  lemma {:induction false} StartsAtMostOnce(ping: nat, n: nat)
    ensures StartCount(ping, n) == (if ping == 0 && n > 0 then 1 else 0)
    ensures PingAfter(ping, n) == (if ping == 0 && n > 0 then 1 else ping)
    decreases n
  {
    if n > 0 {
      StartsAtMostOnce(HealthGuard(ping).ping, n - 1);
    }
  }

  /** The SDK object. `SingletonMeta` makes it one per process, so it owns its scheduler. */
  class DataSpireSDK {
    const id: string
    const name: string
    const target: string
    const testClient: Option<TestClient>
    const topics: TopicNames
    const scheduler: Scheduler
    /** `ping_worker`: how many times this SDK has started the scheduler. */
    var pingWorker: nat

    /** The counter records exactly the scheduler's starts, and that is at most one. */
    ghost predicate Valid()
      reads this, scheduler
    {
      scheduler.starts == pingWorker && pingWorker <= 1
    }

    /** `health_worker` registers the health job and starts the scheduler; without it nothing is scheduled. */
    constructor (id: string, name: string, topics: TopicNames, healthWorker: bool := true,
                 testClient: Option<TestClient> := None, target: string := DefaultTarget)
      ensures this.id == id && this.name == name && this.target == target
      ensures this.testClient == testClient && this.topics == topics
      ensures fresh(scheduler) && Valid()
      ensures healthWorker ==>
        scheduler.jobs == [HealthJobFor(id, name, target, topics)] && scheduler.starts == 1 && pingWorker == 1
      ensures !healthWorker ==> scheduler.jobs == [] && scheduler.starts == 0 && pingWorker == 0
    {
      this.id := id;
      this.name := name;
      this.target := target;
      this.testClient := testClient;
      this.topics := topics;
      this.scheduler := new Scheduler();
      this.pingWorker := 0;
      new;
      if healthWorker {
        scheduler.AddJob(HealthJobFor(id, name, target, topics));
        StartHealthWorker();
      }
    }

    /** `start_health_worker`: one step of `HealthGuard`; the scheduler is started only from a zero counter. */
    method StartHealthWorker()
      requires Valid()
      modifies this`pingWorker, scheduler`starts
      ensures Valid()
      ensures var g := HealthGuard(old(pingWorker));
        && pingWorker == g.ping
        && scheduler.starts == old(scheduler.starts) + (if g.startsScheduler then 1 else 0)
    {
      if pingWorker > 0 {
        return;
      }
      scheduler.Start();
      pingWorker := pingWorker + 1;
    }

    /** The metadata of every session this SDK creates. */
    function SessionMetadata(): Dict
    {
      map["id" := JStr(id), "name" := JStr(name)]
    }

    /** `newSession`; `sessionId` and `now` stand for the new session's `uuid4().hex` and `datetime.now()`. */
    method NewSession(sessionId: string, now: string) returns (s: Session)
      ensures fresh(s)
      ensures s.Config() == SessionConfig(SessionMetadata(), target, SessionTimeout, testClient, topics)
      ensures s.State() == SessionState(SessionInfo(sessionId, now, None), false)
      ensures s.thread == None && s.sent == []
    {
      s := new Session(SessionMetadata(), target, topics, sessionId, now, testClient := testClient);
    }
  }

  /**
   * A session made by the factory stamps every envelope with the SDK's id and
   * name at the top level (the body has neither key, so the metadata passes
   * through), and without a test client each open lifecycle call puts exactly
   * one record on the wire, keyed by the SDK id rather than the session id.
   */
  lemma FactoryEnvelope(id: string, name: string, target: string, topics: TopicNames, st: SessionState, call: Call)
    requires !st.closed && !call.CloseCall?
    ensures var cfg := SessionConfig(map["id" := JStr(id), "name" := JStr(name)], target, SessionTimeout, None, topics);
      var t := Step(cfg, st, call);
      var env := Emit(cfg, t.next.info, call).envelope;
      && env["id"] == JStr(id) && env["name"] == JStr(name)
      && t.effect == Effect(Returned(None), t.effect.send)
      && t.effect.send.Some? && t.effect.send.value.Spawn?
      && RecordsOf(t.effect.send.value.body) == Some([Record(JStr(id), JObj(env))])
  {
    var cfg := SessionConfig(map["id" := JStr(id), "name" := JStr(name)], target, SessionTimeout, None, topics);
    var info := EndWritten(st.info, call);
    var em := Emit(cfg, info, call);
    EnvelopeCommon(cfg, info, call);
    DeliveryGate(cfg, st.closed, em.topic, em.envelope, true);
  }
}
