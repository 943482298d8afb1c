/**
 Fan-out under every interleaving: any number of workers preparing, losing and taking over claims,
 while consumers and devices come and go.
 */
module FanoutRuns {
  import opened Base
  import opened Outbox
  import opened Fanout
  import Core = OutboxRuns

  datatype Cluster = Cluster(
    core: Core.System,
    effects: map<Key, Effect>,
    deliveries: seq<DeliveryRow>,
    targets: map<(Key, Consumer), Target>,
    consumers: map<Consumer, int>,
    devices: set<DeviceId>)

  datatype Step =
    | OutboxStep(step: Core.Step)
    | PrepareStep(token: Token, now: Readings, batch: seq<DeviceId>, consumerBatch: set<Consumer>)
    | Register(consumer: Consumer, expiresAt: int)
    | Unregister(consumer: Consumer)
    | SetDevices(devices: set<DeviceId>)
    // The fence of beginTarget is checked before its update, in another transaction.
    | BeginTarget(target: (Key, Consumer), token: Token)
    | FinishTarget(target: (Key, Consumer), token: Token, at: int, success: bool)

  ghost const EMPTY := Cluster(Core.START, map[], [], map[], map[], {})

  function TablesOf(c: Cluster): Tables {
    Tables(c.core.events, c.effects, c.deliveries, c.targets, c.consumers, c.devices)
  }

  function WithTables(c: Cluster, t: Tables): Cluster {
    c.(effects := t.effects, deliveries := t.deliveries, targets := t.targets)
  }

  /** An acknowledged event completes its effect. */
  ghost function CompleteEffects(effects: map<Key, Effect>, id: EventId, now: int): map<Key, Effect> {
    map key | key in effects ::
      if effects[key].eventId == id then effects[key].(completedAt := Some(now)) else effects[key]
  }

  ghost predicate PrepareEnabled(c: Cluster, step: Step)
    requires step.PrepareStep?
  {
    && step.token in c.core.issued
    && Queried(TablesOf(c), c.core.issued[step.token], step.now, step.batch, step.consumerBatch)
  }

  ghost function Next(c: Cluster, step: Step): Cluster {
    match step
    case OutboxStep(inner) =>
      var effects := if inner.DoAck? && Core.AckSucceeds(c.core, inner.token, inner.now)
                     then CompleteEffects(c.effects, c.core.issued[inner.token].id, inner.now) else c.effects;
      c.(core := Core.Next(c.core, inner), effects := effects)
    case PrepareStep(token, now, batch, consumerBatch) =>
      if !PrepareEnabled(c, step) then c
      else WithTables(c, PrepareBatch(TablesOf(c), c.core.issued[token], now, batch, consumerBatch).0)
    case Register(consumer, expiresAt) => c.(consumers := c.consumers[consumer := expiresAt])
    case Unregister(consumer) => c.(consumers := c.consumers - {consumer})
    case SetDevices(devices) => c.(devices := devices)
    case BeginTarget(target, token) =>
      if token in c.core.issued then c.(targets := Begun(c.targets, target, Some(token))) else c
    case FinishTarget(target, token, at, success) =>
      if Core.AckSucceeds(c.core, token, at) then c.(targets := Finished(c.targets, target, Some(token), success)) else c
  }

  ghost function Run(c: Cluster, steps: seq<Step>): Cluster {
    if steps == [] then c else Next(Run(c, steps[..|steps| - 1]), steps[|steps| - 1])
  }

  ghost predicate Invariant(c: Cluster) {
    Core.Invariant(c.core) && Snapshot(TablesOf(c))
  }

  /** The snapshot looks only at rows, effect owners and what identifies their events. */
  lemma SnapshotMoves(t: Tables, u: Tables)
    requires Snapshot(t)
    requires u.effects.Keys == t.effects.Keys && u.deliveries == t.deliveries && u.targets.Keys == t.targets.Keys
    requires forall key :: key in t.effects ==> u.effects[key].eventId == t.effects[key].eventId
    requires forall id :: id in t.events ==> id in u.events && u.events[id].info == t.events[id].info
    ensures Snapshot(u)
  {
    forall key | key in u.effects
      ensures u.effects[key].eventId in u.events && u.events[u.effects[key].eventId].info.effectKey == key
    {
      assert t.effects[key].eventId in t.events;
    }
    forall row | row in u.deliveries
      ensures row.key in u.effects && row.deviceId in u.events[u.effects[row.key].eventId].info.recipients
    {
      assert row in t.deliveries && t.effects[row.key].eventId in t.events;
    }
    forall p | p in u.targets ensures p.0 in u.effects {
      assert p in t.targets;
    }
  }

  lemma OutboxStepSnapshot(c: Cluster, inner: Core.Step)
    requires Snapshot(TablesOf(c))
    ensures Snapshot(TablesOf(Next(c, OutboxStep(inner))))
  {
    forall id | id in c.core.events
      ensures id in Core.Next(c.core, inner).events && Core.Next(c.core, inner).events[id].info == c.core.events[id].info
    {
      Core.InfoStep(c.core, inner, id);
    }
    SnapshotMoves(TablesOf(c), TablesOf(Next(c, OutboxStep(inner))));
  }

  lemma IssuedGenuine(c: Cluster, token: Token)
    requires Core.Invariant(c.core) && token in c.core.issued
    ensures Genuine(TablesOf(c), c.core.issued[token])
  {
    assert Core.IssuedOk(c.core.events, token, c.core.issued[token]);
  }

  lemma StepSnapshot(c: Cluster, step: Step)
    requires Snapshot(TablesOf(c))
    requires step.PrepareStep? && step.token in c.core.issued ==> Genuine(TablesOf(c), c.core.issued[step.token])
    ensures Snapshot(TablesOf(Next(c, step)))
  {
    match step
    case OutboxStep(inner) => OutboxStepSnapshot(c, inner);
    case PrepareStep(token, now, batch, consumerBatch) =>
      if PrepareEnabled(c, step) {
        PrepareKeepsSnapshot(TablesOf(c), c.core.issued[token], now, batch, consumerBatch);
      }
    case _ => SnapshotMoves(TablesOf(c), TablesOf(Next(c, step)));
  }

  lemma NextKeeps(c: Cluster, step: Step)
    requires Invariant(c)
    ensures Invariant(Next(c, step))
  {
    if step.PrepareStep? && step.token in c.core.issued {
      IssuedGenuine(c, step.token);
    }
    StepSnapshot(c, step);
    if step.OutboxStep? {
      Core.NextKeeps(c.core, step.step);
    }
  }

  /** In every reachable state rows belong to the recipients of the one event that owns the effect,
      and no recipient has two rows. */
  lemma {:induction false} RunKeeps(c: Cluster, steps: seq<Step>)
    requires Invariant(c)
    ensures Core.Invariant(Run(c, steps).core) && Snapshot(TablesOf(Run(c, steps)))
    decreases |steps|
  {
    if steps != [] {
      RunKeeps(c, steps[..|steps| - 1]);
      NextKeeps(Run(c, steps[..|steps| - 1]), steps[|steps| - 1]);
    }
  }

  lemma NeverMixed(steps: seq<Step>, row: DeliveryRow, i: nat, j: nat)
    requires var c := Run(EMPTY, steps);
             i < j < |c.deliveries| && c.deliveries[i] == row
    ensures var c := Run(EMPTY, steps);
            && c.deliveries[j] != row
            && row.key in c.effects && c.effects[row.key].eventId in c.core.events
            && row.deviceId in c.core.events[c.effects[row.key].eventId].info.recipients
  {
    Core.StartInvariant();
    RunKeeps(EMPTY, steps);
    assert row in Run(EMPTY, steps).deliveries;
  }

  // ---- After preparation ----

  predicate Prepared(c: Cluster, key: Key) {
    key in c.effects && c.effects[key].preparedAt.Some?
  }

  /** The same snapshot of an effect: owner, time, recipients and consumers. */
  ghost predicate SameSnapshot(a: Cluster, b: Cluster, key: Key) {
    && key in a.effects && key in b.effects
    && a.effects[key].eventId == b.effects[key].eventId && a.effects[key].preparedAt == b.effects[key].preparedAt
    && (forall d :: DeliveryRow(key, d) in a.deliveries <==> DeliveryRow(key, d) in b.deliveries)
    && (forall consumer :: (key, consumer) in a.targets <==> (key, consumer) in b.targets)
  }

  ghost predicate SameRows(t: Tables, u: Tables, key: Key) {
    && key in t.effects && key in u.effects && u.effects[key] == t.effects[key]
    && (forall d :: DeliveryRow(key, d) in u.deliveries <==> DeliveryRow(key, d) in t.deliveries)
    && (forall consumer :: (key, consumer) in u.targets <==> (key, consumer) in t.targets)
  }

  lemma OpenTouchesOwnEffect(t: Tables, event: Claim, key: Key)
    requires key in t.effects && key != event.row.info.effectKey && Open(t, event).Proceed?
    ensures SameRows(t, Open(t, event).tables, key)
  {
    RowsNotOfExact(t.deliveries, event.row.info.effectKey);
  }

  lemma AddTouchesOwnEffect(t: Tables, event: Claim, devices: seq<DeviceId>, consumers: set<Consumer>, prepared: int, key: Key)
    requires key in t.effects && key != event.row.info.effectKey
    ensures SameRows(t, AddRows(t, event, devices, consumers, prepared).0, key)
  {
    var added := RowsFor(event.row.info.effectKey, devices);
    forall d ensures DeliveryRow(key, d) in t.deliveries + added <==> DeliveryRow(key, d) in t.deliveries {
      assert DeliveryRow(key, d) !in added;
    }
  }

  lemma OtherEffectsUntouched(t: Tables, event: Claim, now: Readings, devices: seq<DeviceId>, consumers: set<Consumer>, key: Key)
    requires key in t.effects && (t.effects[key].preparedAt.Some? || key != event.row.info.effectKey)
    ensures SameRows(t, PrepareBatch(t, event, now, devices, consumers).0, key)
  {
    if key != event.row.info.effectKey && Open(t, event).Proceed? {
      OpenTouchesOwnEffect(t, event, key);
      AddTouchesOwnEffect(Open(t, event).tables, event, devices, consumers, now.prepared, key);
    }
  }

  lemma FrozenStep(c: Cluster, step: Step, key: Key)
    requires Prepared(c, key)
    ensures SameSnapshot(c, Next(c, step), key)
  {
    if step.PrepareStep? && PrepareEnabled(c, step) {
      OtherEffectsUntouched(TablesOf(c), c.core.issued[step.token], step.now, step.batch, step.consumerBatch, key);
    }
  }

  /** Nothing is added to or taken from a prepared snapshot, whoever claims what afterwards. */
  lemma {:induction false} FrozenForever(c: Cluster, steps: seq<Step>, key: Key)
    requires Prepared(c, key)
    ensures SameSnapshot(c, Run(c, steps), key)
    decreases |steps|
  {
    if steps != [] {
      FrozenForever(c, steps[..|steps| - 1], key);
      FrozenStep(Run(c, steps[..|steps| - 1]), steps[|steps| - 1], key);
    }
  }

  /** The listed devices that exist have rows, nobody else has, and live consumers have targets. */
  ghost predicate CompleteSnapshot(c: Cluster, end: Cluster, key: Key, queriedAt: int)
    requires key in c.effects && c.effects[key].eventId in c.core.events
  {
    var recipients := c.core.events[c.effects[key].eventId].info.recipients;
    && (forall d :: d in recipients && d in c.devices ==> DeliveryRow(key, d) in end.deliveries)
    && (forall d :: DeliveryRow(key, d) in end.deliveries ==> d in recipients)
    && (forall consumer :: consumer in c.consumers && c.consumers[consumer] > queriedAt ==> (key, consumer) in end.targets)
  }

  lemma BecomesPrepared(c: Cluster, step: Step, key: Key)
    requires Snapshot(TablesOf(c)) && !Prepared(c, key) && Prepared(Next(c, step), key)
    requires step.PrepareStep? && step.token in c.core.issued ==> Genuine(TablesOf(c), c.core.issued[step.token])
    ensures step.PrepareStep?
    ensures var d := Next(c, step);
            && d.effects[key].eventId in d.core.events
            && CompleteSnapshot(d, d, key, step.now.query)
  {
    assert step.PrepareStep? && PrepareEnabled(c, step);
    var claim := c.core.issued[step.token];
    if key != claim.row.info.effectKey {
      OnlyOwnEffect(TablesOf(c), claim, step.now, step.batch, step.consumerBatch, key);
    }
    PreparedIsComplete(TablesOf(c), claim, step.now, step.batch, step.consumerBatch);
    PrepareKeepsSnapshot(TablesOf(c), claim, step.now, step.batch, step.consumerBatch);
  }

  lemma OnlyOwnEffect(t: Tables, event: Claim, now: Readings, devices: seq<DeviceId>, consumers: set<Consumer>, key: Key)
    requires key != event.row.info.effectKey
    ensures var u := PrepareBatch(t, event, now, devices, consumers).0;
            (key in u.effects <==> key in t.effects) && (key in t.effects ==> u.effects[key] == t.effects[key])
  {
  }

  /** However many workers and takeovers it took, the snapshot that becomes visible is complete,
      contains nothing else, and stays like that. */
  lemma VisibleSnapshot(before: seq<Step>, step: Step, after: seq<Step>, key: Key)
    requires !Prepared(Run(EMPTY, before), key) && Prepared(Next(Run(EMPTY, before), step), key)
    ensures step.PrepareStep?
    ensures var c := Next(Run(EMPTY, before), step);
            && c.effects[key].eventId in c.core.events
            && SameSnapshot(c, Run(c, after), key)
            && CompleteSnapshot(c, Run(c, after), key, step.now.query)
  {
    Core.StartInvariant();
    RunKeeps(EMPTY, before);
    if step.PrepareStep? && step.token in Run(EMPTY, before).core.issued {
      IssuedGenuine(Run(EMPTY, before), step.token);
    }
    BecomesPrepared(Run(EMPTY, before), step, key);
    FrozenForever(Next(Run(EMPTY, before), step), after, key);
  }

  // ---- Targets ----

  /** A target's delivery is decided only by the unexpired claim that began its last attempt. */
  lemma DecidedByHolder(c: Cluster, step: Step, target: (Key, Consumer))
    requires Core.Invariant(c.core) && Prepared(c, target.0) && target in c.targets
    ensures target in Next(c, step).targets
    ensures Next(c, step).targets[target].delivered != c.targets[target].delivered ==>
              && step.FinishTarget? && step.target == target
              && c.targets[target].attemptToken == Some(step.token)
              && Core.Holds(c.core, step.token) && Core.AckSucceeds(c.core, step.token, step.at)
  {
    FrozenStep(c, step, target.0);
    assert Next(c, step).targets.Keys >= {target};
    if step.PrepareStep? && PrepareEnabled(c, step) {
      TargetsKept(TablesOf(c), c.core.issued[step.token], step.now, step.batch, step.consumerBatch, target);
    } else if step.FinishTarget? && Core.AckSucceeds(c.core, step.token, step.at) {
      Core.FencedMeansHeld(c.core, step.token, step.at);
    }
  }

  lemma TargetsKept(t: Tables, event: Claim, now: Readings, devices: seq<DeviceId>, consumers: set<Consumer>, target: (Key, Consumer))
    requires target in t.targets && target.0 in t.effects && t.effects[target.0].preparedAt.Some?
    requires Queried(t, event, now, devices, consumers)
    ensures target in PrepareBatch(t, event, now, devices, consumers).0.targets
    ensures PrepareBatch(t, event, now, devices, consumers).0.targets[target] == t.targets[target]
  {
    if Fenced(t.events, event, now.start) && Open(t, event).Proceed? {
      assert event.row.info.effectKey != target.0;
    }
  }

  /** Delivered under a claim that no longer holds its event. */
  ghost predicate Decided(c: Cluster, target: (Key, Consumer)) {
    && Prepared(c, target.0) && target in c.targets
    && c.targets[target].delivered && c.targets[target].attemptToken.Some?
    && c.targets[target].attemptToken.value in c.core.issued && !Core.Holds(c.core, c.targets[target].attemptToken.value)
  }

  lemma TargetStep(c: Cluster, step: Step, target: (Key, Consumer))
    requires Core.Invariant(c.core) && Decided(c, target)
    ensures target in Next(c, step).targets && Next(c, step).targets[target] == c.targets[target]
  {
    if step.PrepareStep? && PrepareEnabled(c, step) {
      TargetsKept(TablesOf(c), c.core.issued[step.token], step.now, step.batch, step.consumerBatch, target);
    } else if step.FinishTarget? && Core.AckSucceeds(c.core, step.token, step.at) {
      Core.FencedMeansHeld(c.core, step.token, step.at);
    }
  }

  lemma ClaimStep(c: Cluster, step: Step, token: Token)
    requires Core.Invariant(c.core) && token in c.core.issued && !Core.Holds(c.core, token)
    ensures Core.Invariant(Next(c, step).core) && token in Next(c, step).core.issued && !Core.Holds(Next(c, step).core, token)
  {
    if step.OutboxStep? {
      Core.NextKeeps(c.core, step.step);
      Core.LostStep(c.core, step.step, token);
    } else {
      assert Next(c, step).core == c.core;
    }
  }

  /** A delivered target whose claim has ended is never attempted or reset again. */
  lemma {:induction false} DeliveredForever(c: Cluster, steps: seq<Step>, target: (Key, Consumer))
    requires Core.Invariant(c.core) && Decided(c, target)
    ensures Core.Invariant(Run(c, steps).core) && Decided(Run(c, steps), target)
    ensures Run(c, steps).targets[target] == c.targets[target]
    decreases |steps|
  {
    if steps != [] {
      var front, step := steps[..|steps| - 1], steps[|steps| - 1];
      DeliveredForever(c, front, target);
      FrozenStep(Run(c, front), step, target.0);
      TargetStep(Run(c, front), step, target);
      ClaimStep(Run(c, front), step, c.targets[target].attemptToken.value);
    }
  }
}
