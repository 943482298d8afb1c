/** Queue policies and routing of backend/src/jobs/queue-policy.ts and queue-routing.ts. */
module Queues {
  import opened Base

  datatype Queue = SourceRefresh | Rendering | Delivery | Timer | Maintenance | RemoteSync

  const MAX_ATTEMPTS := 5
  const LEASE_MS := 30_000
  const CONSUMER_LEASE_MS := 15_000
  const BATCH_SIZE := 16

  /** Unexpired leases a queue may have across all worker processes. */
  function GlobalConcurrency(queue: Queue): nat {
    match queue
    case SourceRefresh => 4
    case RemoteSync => 2
    case Rendering => 1
    case Delivery => 4
    case Timer => 2
    case Maintenance => 1
  }

  // ---- Retry delay ----

  function Pow2(n: nat): (p: nat)
    ensures p >= 1
  {
    if n == 0 then 1 else 2 * Pow2(n - 1)
  }

  function BaseDelay(attempt: nat): int {
    Min(60_000, 1_000 * Pow2(Max(0, attempt - 1)))
  }

  function Jittered(delay: real, sample: real): real {
    delay * (1.0 + sample * 0.2)
  }

  /** Exponential from one second, capped at one minute, plus up to 20% jitter. A bad sample throws. */
  function RetryDelay(attempt: nat, sample: real): Result<real, ()> {
    if !(0.0 <= sample <= 1.0) then Err(())
    else Ok(Jittered(BaseDelay(attempt) as real, sample))
  }

  lemma {:induction false} Pow2Monotone(m: nat, n: nat)
    requires m <= n
    ensures Pow2(m) <= Pow2(n)
    decreases n
  {
    if m < n {
      Pow2Monotone(m, n - 1);
    }
  }

  lemma BaseDelayBounds(attempt: nat, later: nat)
    requires attempt <= later
    ensures 1_000 <= BaseDelay(attempt) <= BaseDelay(later) <= 60_000
    ensures 1 <= attempt <= 5 ==> BaseDelay(attempt + 1) == 2 * BaseDelay(attempt)
  {
    var e := Max(0, attempt - 1);
    Pow2Monotone(e, Max(0, later - 1));
    if 1 <= attempt <= 5 {
      Pow2Monotone(e, 4);
      assert Pow2(4) == 16;
      assert Pow2(attempt) == 2 * Pow2(e);
    }
  }

  lemma JitterBounds(delay: real, sample: real)
    requires delay >= 0.0 && 0.0 <= sample <= 1.0
    ensures delay <= Jittered(delay, sample) <= delay + delay * 0.2
    ensures Jittered(delay, 0.0) == delay
  {
    var extra := delay * sample;
    assert 0.0 <= extra <= delay;
    assert Jittered(delay, sample) == delay + extra * 0.2;
  }

  /** Between a second and 72 seconds, doubling up to the fifth attempt; jitter only ever adds. */
  lemma RetryDelayBounds(attempt: nat, later: nat, sample: real)
    requires 0.0 <= sample <= 1.0 && attempt <= later
    ensures 1_000.0 <= RetryDelay(attempt, 0.0).value <= RetryDelay(attempt, sample).value <= 72_000.0
    ensures RetryDelay(attempt, 0.0).value <= RetryDelay(later, 0.0).value
    ensures 1 <= attempt <= 5 ==> RetryDelay(attempt + 1, 0.0).value == 2.0 * RetryDelay(attempt, 0.0).value
  {
    BaseDelayBounds(attempt, later);
    JitterBounds(BaseDelay(attempt) as real, sample);
    JitterBounds(BaseDelay(attempt + 1) as real, 0.0);
    JitterBounds(BaseDelay(later) as real, 0.0);
  }

  // ---- Routing ----

  const ROUTES: map<string, Queue> := map[
    "source.refresh.due" := SourceRefresh,
    "render.requested" := Rendering,
    "playback.transition.due" := Timer,
    "timer.completion.due" := Timer,
    "maintenance.cleanup.due" := Maintenance,
    "remote.sync.due" := RemoteSync
  ]

  /** Names that a lookup in an object literal finds on Object.prototype. */
  const INHERITED: set<string> := {
    "constructor", "hasOwnProperty", "isPrototypeOf", "propertyIsEnumerable", "toLocaleString", "toString", "valueOf",
    "__proto__", "__defineGetter__", "__defineSetter__", "__lookupGetter__", "__lookupSetter__"
  }

  /** queueForEvent: an own route, else whatever the prototype supplies (None: not a queue), else delivery. */
  function QueueForEvent(eventType: string): Option<Queue> {
    if eventType in ROUTES then Some(ROUTES[eventType])
    else if eventType in INHERITED then None
    else Some(Delivery)
  }

  /** queueEventFilter: the event types a queue claims. */
  predicate Claims(queue: Queue, eventType: string) {
    if queue == Delivery then eventType !in ROUTES
    else eventType in ROUTES && ROUTES[eventType] == queue
  }

  /** Every event type is claimed by exactly one queue. */
  lemma FiltersPartition(eventType: string)
    ensures exists queue :: Claims(queue, eventType) && forall other :: Claims(other, eventType) ==> other == queue
  {
    var queue := if eventType in ROUTES then ROUTES[eventType] else Delivery;
    if eventType in ROUTES {
      NoRouteToDelivery(eventType);
    }
    assert Claims(queue, eventType);
  }

  lemma NoRouteToDelivery(eventType: string)
    requires eventType in ROUTES
    ensures ROUTES[eventType] != Delivery
  {
  }

  /** Dispatch and claiming agree, except on a name inherited from Object.prototype. */
  lemma RoutingAgrees(eventType: string)
    ensures (forall queue :: Claims(queue, eventType) <==> QueueForEvent(eventType) == Some(queue))
       <==> eventType !in INHERITED
  {
    if eventType in ROUTES {
      NoRouteToDelivery(eventType);
      NotInherited(eventType);
    } else {
      assert Claims(Delivery, eventType);
    }
  }

  lemma NotInherited(eventType: string)
    requires eventType in ROUTES
    ensures eventType !in INHERITED
  {
  }
}
