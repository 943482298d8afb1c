/** Concurrency budgets over every run: how many unexpired leases a group of events can have. */
module OutboxBudgets {
  import opened Base
  import opened Queues
  import opened Outbox
  import opened OutboxRuns

  /** At the true time, and at any later time until the next step, the group is within its limit. */
  ghost predicate Within(s: System, group: Filter, limit: nat) {
    forall t :: s.clock <= t ==> |ActiveIds(s.events, group, t)| <= limit
  }

  ghost predicate SameGroup(a: Filter, b: Filter) {
    forall id, info :: a(id, info) <==> b(id, info)
  }

  /** The claim either reserves against this very group, or cannot take a row of the group at all. */
  ghost predicate Respects(step: Step, group: Filter, limit: nat)
    requires step.DoClaim?
  {
    || (exists i :: 0 <= i < |step.budgets| && step.budgets[i].limit == limit && SameGroup(step.budgets[i].group, group))
    || (forall id, info :: Narrowed(step.filter, step.budgets)(id, info) ==> !group(id, info))
  }

  /** Claimers may read a clock that lags the true time, never one that is ahead of it. */
  ghost predicate Allowed(s: System, step: Step, group: Filter, limit: nat) {
    step.DoClaim? ==> step.now <= s.clock && Respects(step, group, limit)
  }

  lemma SubsetSize<T>(a: set<T>, b: set<T>)
    requires a <= b
    ensures |a| <= |b|
  {
    assert b == a + (b - a);
  }

  lemma ActiveShrinks(events: Events, group: Filter, early: int, late: int)
    requires early <= late
    ensures ActiveIds(events, group, late) <= ActiveIds(events, group, early)
  {
  }

  /** Only a successful claim adds a lease, and only its own. */
  lemma StepActive(s: System, step: Step, group: Filter, t: int)
    ensures ActiveIds(Next(s, step).events, group, t)
         <= ActiveIds(s.events, group, t)
            + if step.DoClaim? && ClaimEnabled(s, step) && step.candidate.Some?
                 && group(step.candidate.value, s.events[step.candidate.value].info)
              then {step.candidate.value} else {}
  {
  }

  lemma ReservedBefore(s: System, step: Step, group: Filter, limit: nat, t: int)
    requires step.DoClaim? && ClaimEnabled(s, step) && step.candidate.Some? && Allowed(s, step, group, limit)
    requires group(step.candidate.value, s.events[step.candidate.value].info) && s.clock <= t
    ensures |ActiveIds(s.events, group, t)| < limit
  {
    var id := step.candidate.value;
    assert id in ClaimableIds(s.events, Narrowed(step.filter, step.budgets), step.now);
    var i :| 0 <= i < |step.budgets| && step.budgets[i].limit == limit && SameGroup(step.budgets[i].group, group);
    assert ActiveIds(s.events, step.budgets[i].group, step.now) == ActiveIds(s.events, group, step.now);
    ActiveShrinks(s.events, group, step.now, t);
    SubsetSize(ActiveIds(s.events, group, t), ActiveIds(s.events, group, step.now));
  }

  lemma StepWithin(s: System, step: Step, group: Filter, limit: nat)
    requires Within(s, group, limit) && Allowed(s, step, group, limit)
    ensures Within(Next(s, step), group, limit)
  {
    forall t | Next(s, step).clock <= t ensures |ActiveIds(Next(s, step).events, group, t)| <= limit {
      var before, after := ActiveIds(s.events, group, t), ActiveIds(Next(s, step).events, group, t);
      StepActive(s, step, group, t);
      if after <= before {
        SubsetSize(after, before);
      } else {
        ReservedBefore(s, step, group, limit, t);
        SubsetSize(after, before + {step.candidate.value});
      }
    }
  }

  ghost predicate AllAllowed(s: System, steps: seq<Step>, group: Filter, limit: nat) {
    forall i :: 0 <= i < |steps| ==> Allowed(Run(s, steps[..i]), steps[i], group, limit)
  }

  lemma {:induction false} RunWithin(s: System, steps: seq<Step>, group: Filter, limit: nat)
    requires Within(s, group, limit) && AllAllowed(s, steps, group, limit)
    ensures Within(Run(s, steps), group, limit)
    decreases |steps|
  {
    if steps != [] {
      var before := steps[..|steps| - 1];
      forall i | 0 <= i < |before| ensures Allowed(Run(s, before[..i]), before[i], group, limit) {
        assert before[..i] == steps[..i];
      }
      RunWithin(s, before, group, limit);
      StepWithin(Run(s, before), steps[|steps| - 1], group, limit);
    }
  }

  // ---- Queues ----

  function QueueGroup(queue: Queue): Filter {
    (id: EventId, info: Info) => Claims(queue, info.eventType)
  }

  /** How the dispatcher claims for a queue: the whole queue group is the first budget. */
  ghost predicate QueueClaim(step: Step, queue: Queue)
    requires step.DoClaim?
  {
    && |step.budgets| > 0 && step.budgets[0].limit == GlobalConcurrency(queue)
    && SameGroup(step.budgets[0].group, QueueGroup(queue))
  }

  ghost predicate Dispatched(s: System, step: Step) {
    step.DoClaim? ==> step.now <= s.clock && exists queue :: QueueClaim(step, queue)
  }

  lemma QueueClaimRespects(step: Step, queue: Queue, other: Queue)
    requires step.DoClaim? && QueueClaim(step, queue)
    ensures Respects(step, QueueGroup(other), GlobalConcurrency(other))
  {
    if queue != other {
      forall id, info | Narrowed(step.filter, step.budgets)(id, info) ensures !QueueGroup(other)(id, info) {
        assert step.budgets[0].group(id, info);
        assert QueueGroup(queue)(id, info);
        if info.eventType in ROUTES {
          NoRouteToDelivery(info.eventType);
        }
      }
    }
  }

  /** No run of dispatchers, on any number of processes and with lagging clocks, exceeds a queue's limit. */
  lemma QueueBudgets(steps: seq<Step>, queue: Queue)
    requires forall i :: 0 <= i < |steps| ==> Dispatched(Run(START, steps[..i]), steps[i])
    ensures Within(Run(START, steps), QueueGroup(queue), GlobalConcurrency(queue))
  {
    var group, limit := QueueGroup(queue), GlobalConcurrency(queue);
    forall i | 0 <= i < |steps| ensures Allowed(Run(START, steps[..i]), steps[i], group, limit) {
      assert Dispatched(Run(START, steps[..i]), steps[i]);
      if steps[i].DoClaim? {
        var q :| QueueClaim(steps[i], q);
        QueueClaimRespects(steps[i], q, queue);
      }
    }
    NothingActive(group, limit);
    RunWithin(START, steps, group, limit);
  }

  lemma NothingActive(group: Filter, limit: nat)
    ensures Within(START, group, limit)
  {
    forall t ensures ActiveIds(START.events, group, t) == {} {
    }
  }

  // ---- Remote sync: nested budgets ----

  const REMOTE_PER_SERVER := 1
  const REMOTE_PER_SUBSCRIPTION := 1

  predicate IsRemote(info: Info) {
    info.eventType == "remote.sync.due"
  }

  function RemoteGroup(): Filter {
    (id: EventId, info: Info) => IsRemote(info)
  }

  function ServerGroup(server: string): Filter {
    (id: EventId, info: Info) => IsRemote(info) && info.server == Some(server)
  }

  function SubscriptionGroup(subscription: string): Filter {
    (id: EventId, info: Info) => IsRemote(info) && info.aggregateId == subscription
  }

  /** RemoteWorkerService.claim for one candidate job. */
  ghost predicate RemoteClaim(step: Step)
    requires step.DoClaim?
  {
    exists server, subscription ::
      step.budgets == [Budget(RemoteGroup(), GlobalConcurrency(RemoteSync)),
                       Budget(ServerGroup(server), REMOTE_PER_SERVER),
                       Budget(SubscriptionGroup(subscription), REMOTE_PER_SUBSCRIPTION)]
  }

  /** Every other claim is a dispatcher's, for another queue. */
  ghost predicate RemoteOrOther(s: System, step: Step) {
    step.DoClaim? ==>
      && step.now <= s.clock
      && (RemoteClaim(step) || exists queue :: queue != RemoteSync && QueueClaim(step, queue))
  }

  ghost predicate RemoteRun(steps: seq<Step>) {
    forall i :: 0 <= i < |steps| ==> RemoteOrOther(Run(START, steps[..i]), steps[i])
  }

  lemma OtherQueuesAvoidRemote(step: Step, queue: Queue, group: Filter, limit: nat)
    requires step.DoClaim? && queue != RemoteSync && QueueClaim(step, queue)
    requires forall id, info :: group(id, info) ==> IsRemote(info)
    ensures Respects(step, group, limit)
  {
    forall id, info | Narrowed(step.filter, step.budgets)(id, info) ensures !group(id, info) {
      assert step.budgets[0].group(id, info);
      assert QueueGroup(queue)(id, info);
    }
  }

  /** The limits remote sync has to keep: globally, per server, per subscription. */
  ghost predicate RemoteLimit(group: Filter, limit: nat) {
    || (SameGroup(group, RemoteGroup()) && limit == GlobalConcurrency(RemoteSync))
    || (exists server :: SameGroup(group, ServerGroup(server)) && limit == REMOTE_PER_SERVER)
    || (exists subscription :: SameGroup(group, SubscriptionGroup(subscription)) && limit == REMOTE_PER_SUBSCRIPTION)
  }

  lemma RemoteClaimRespects(step: Step, group: Filter, limit: nat)
    requires step.DoClaim? && RemoteClaim(step) && RemoteLimit(group, limit)
    ensures Respects(step, group, limit)
  {
    forall id, info | Narrowed(step.filter, step.budgets)(id, info)
      ensures step.budgets[0].group(id, info) && step.budgets[1].group(id, info) && step.budgets[2].group(id, info)
    {
    }
    assert SameGroup(step.budgets[0].group, group) || SameGroup(step.budgets[1].group, group)
           || SameGroup(step.budgets[2].group, group)
           || forall id, info :: Narrowed(step.filter, step.budgets)(id, info) ==> !group(id, info);
  }

  lemma RemoteStepAllowed(s: System, step: Step, group: Filter, limit: nat)
    requires RemoteOrOther(s, step) && RemoteLimit(group, limit)
    ensures Allowed(s, step, group, limit)
  {
    if step.DoClaim? {
      if RemoteClaim(step) {
        RemoteClaimRespects(step, group, limit);
      } else {
        var queue :| queue != RemoteSync && QueueClaim(step, queue);
        OtherQueuesAvoidRemote(step, queue, group, limit);
      }
    }
  }

  lemma RemoteGroupWithin(steps: seq<Step>, group: Filter, limit: nat)
    requires RemoteRun(steps) && RemoteLimit(group, limit)
    ensures Within(Run(START, steps), group, limit)
  {
    forall i | 0 <= i < |steps| ensures Allowed(Run(START, steps[..i]), steps[i], group, limit) {
      RemoteStepAllowed(Run(START, steps[..i]), steps[i], group, limit);
    }
    NothingActive(group, limit);
    RunWithin(START, steps, group, limit);
  }

  lemma RemoteLimits(server: string, subscription: string)
    ensures RemoteLimit(RemoteGroup(), 2)
    ensures RemoteLimit(ServerGroup(server), 1)
    ensures RemoteLimit(SubscriptionGroup(subscription), 1)
  {
    assert SameGroup(ServerGroup(server), ServerGroup(server));
    assert SameGroup(SubscriptionGroup(subscription), SubscriptionGroup(subscription));
  }

  /** The global, per-server and per-subscription limits of remote sync hold together in every run. */
  lemma RemoteBudgets(steps: seq<Step>, server: string, subscription: string)
    requires RemoteRun(steps)
    ensures Within(Run(START, steps), RemoteGroup(), 2)
    ensures Within(Run(START, steps), ServerGroup(server), 1)
    ensures Within(Run(START, steps), SubscriptionGroup(subscription), 1)
  {
    RemoteLimits(server, subscription);
    RemoteGroupWithin(steps, RemoteGroup(), 2);
    RemoteGroupWithin(steps, ServerGroup(server), 1);
    RemoteGroupWithin(steps, SubscriptionGroup(subscription), 1);
  }
}
