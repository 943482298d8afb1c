/**
 The fan-out snapshot of an outbox event (OutboxStore.prepare): one transaction inserts at most one
 batch of recipient or consumer rows; an effect becomes visible only when it is marked prepared.
 */
module Fanout {
  import opened Base
  import opened Queues
  import opened Outbox
  import OutboxRuns

  type Key = string
  type Consumer = string

  const PREPARE_BATCH := 64

  datatype Effect = Effect(eventId: EventId, preparedAt: Option<int>, completedAt: Option<int>)

  datatype DeliveryRow = DeliveryRow(key: Key, deviceId: DeviceId)

  datatype Target = Target(delivered: bool, attemptToken: Option<Token>, failed: bool)

  const NEW_TARGET := Target(false, None, false)

  /** The tables prepare works on; deliveries are rows in insertion order. */
  datatype Tables = Tables(
    events: Events,
    effects: map<Key, Effect>,
    deliveries: seq<DeliveryRow>,
    targets: map<(Key, Consumer), Target>,
    consumers: map<Consumer, int>,
    devices: set<DeviceId>)

  // ---- Attempts of one consumer ----

  /** beginTarget's update: an undelivered target that this claim has not begun yet. */
  function Begun(targets: map<(Key, Consumer), Target>, p: (Key, Consumer), token: Option<Token>): map<(Key, Consumer), Target> {
    if p in targets && !targets[p].delivered && (targets[p].attemptToken.None? || targets[p].attemptToken != token)
    then targets[p := targets[p].(attemptToken := token, failed := false)] else targets
  }

  /** finishTarget's update: only the claim that began the attempt last. */
  function Finished(targets: map<(Key, Consumer), Target>, p: (Key, Consumer), token: Option<Token>, success: bool): map<(Key, Consumer), Target> {
    if p in targets && token.Some? && targets[p].attemptToken == token
    then targets[p := targets[p].(delivered := success, failed := !success)] else targets
  }

  // ---- When the delivery is complete ----

  /** Every target of a consumer whose lease is running is delivered. */
  predicate AllDelivered(targets: map<(Key, Consumer), Target>, consumers: map<Consumer, int>, key: Key, now: int) {
    forall p :: p in targets && p.0 == key && p.1 in consumers && consumers[p.1] > now ==> targets[p].delivered
  }

  /** A consumer that registers holds up the effects it is a target of until it has delivered or its
      fifteen seconds are over; for everything else the registration makes no difference. */
  lemma RegistrationHoldsUp(t: Tables, consumer: Consumer, at: int, key: Key, now: int)
    ensures var registered := t.consumers[consumer := at + CONSUMER_LEASE_MS];
            var others := t.consumers - {consumer};
            AllDelivered(t.targets, registered, key, now)
            <==> && AllDelivered(t.targets, others, key, now)
                 && ((key, consumer) in t.targets && now < at + 15_000 ==> t.targets[(key, consumer)].delivered)
  {
    var registered, others := t.consumers[consumer := at + CONSUMER_LEASE_MS], t.consumers - {consumer};
    if AllDelivered(t.targets, registered, key, now) {
      forall p | p in t.targets && p.0 == key && p.1 in others && others[p.1] > now ensures t.targets[p].delivered {
        assert p.1 in registered && registered[p.1] == others[p.1];
      }
    }
  }

  // ---- One transaction ----

  /** Clock readings within one transaction. */
  datatype Readings = Readings(start: int, query: int, prepared: int, end: int)

  datatype Outcome = ClaimExpired | EffectIncomplete | Done(duplicate: bool) | More

  /** Delete an effect; its rows go with it. */
  function Discard(t: Tables, key: Key): Tables {
    t.(effects := t.effects - {key},
       deliveries := RowsNotOf(t.deliveries, key),
       targets := map p | p in t.targets && p.0 != key :: t.targets[p])
  }

  function RowsNotOf(rows: seq<DeliveryRow>, key: Key): seq<DeliveryRow> {
    if rows == [] then []
    else RowsNotOf(rows[..|rows| - 1], key) + if rows[|rows| - 1].key == key then [] else [rows[|rows| - 1]]
  }

  /** Listed devices that exist and have no row yet. */
  function MissingDevices(t: Tables, event: Claim): set<DeviceId> {
    set d | d in event.row.info.recipients && d in t.devices && DeliveryRow(event.row.info.effectKey, d) !in t.deliveries
  }

  /** Consumers whose lease is running and that have no target yet. */
  function MissingConsumers(t: Tables, key: Key, now: int): set<Consumer> {
    set c | c in t.consumers && t.consumers[c] > now && (key, c) !in t.targets
  }

  /** ORDER BY id LIMIT 64. */
  ghost predicate FirstDevices(batch: seq<DeviceId>, all: set<DeviceId>) {
    && |batch| == Min(PREPARE_BATCH, |all|)
    && (forall i :: 0 <= i < |batch| ==> batch[i] in all)
    && (forall i, j :: 0 <= i < j < |batch| ==> batch[i] < batch[j])
    && (forall d, i :: d in all && d !in batch && 0 <= i < |batch| ==> batch[i] < d)
  }

  predicate ConsumerBatch(batch: set<Consumer>, all: set<Consumer>) {
    batch <= all && |batch| == Min(PREPARE_BATCH, |all|)
  }

  function RowsFor(key: Key, devices: seq<DeviceId>): (rows: seq<DeliveryRow>)
    ensures |rows| == |devices|
    ensures forall i :: 0 <= i < |devices| ==> rows[i] == DeliveryRow(key, devices[i])
  {
    seq(|devices|, i requires 0 <= i < |devices| => DeliveryRow(key, devices[i]))
  }

  /** What happens to the effect of this key before any row is added. */
  datatype Opening = Stop(outcome: Outcome) | Proceed(tables: Tables)

  function Open(t: Tables, event: Claim): Opening {
    var key := event.row.info.effectKey;
    if key !in t.effects then
      Proceed(t.(effects := t.effects[key := Effect(event.id, None, None)]))
    else
      var existing := t.effects[key];
      if existing.eventId == event.id then
        if existing.preparedAt.Some? then Stop(Done(false)) else Proceed(t)
      else if existing.preparedAt.Some? then Stop(Done(true))
      else if existing.eventId in t.events && t.events[existing.eventId].status != DeadLetter then Stop(EffectIncomplete)
      else
        var emptied := Discard(t, key);
        Proceed(emptied.(effects := emptied.effects[key := Effect(event.id, None, None)]))
  }

  function AddRows(t: Tables, event: Claim, devices: seq<DeviceId>, consumers: set<Consumer>, prepared: int): (Tables, Outcome) {
    var key := event.row.info.effectKey;
    if devices != [] then (t.(deliveries := t.deliveries + RowsFor(key, devices)), More)
    else if consumers != {} then
      (t.(targets := t.targets + map c | c in consumers :: (key, c) := NEW_TARGET), More)
    else if key in t.effects then
      (t.(effects := t.effects[key := t.effects[key].(preparedAt := Some(prepared))]), Done(false))
    else (t, Done(false))
  }

  /** One batch transaction: fenced at its start and again before it commits. */
  function PrepareBatch(t: Tables, event: Claim, now: Readings, devices: seq<DeviceId>, consumers: set<Consumer>): (Tables, Outcome) {
    if !Fenced(t.events, event, now.start) then (t, ClaimExpired)
    else
      match Open(t, event)
      case Stop(EffectIncomplete) => (t, EffectIncomplete)
      case Stop(outcome) => if Fenced(t.events, event, now.end) then (t, outcome) else (t, ClaimExpired)
      case Proceed(ready) =>
        if !Fenced(t.events, event, now.end) then (t, ClaimExpired)
        else AddRows(ready, event, devices, consumers, now.prepared)
  }

  /** The batches are the ones the two queries return, if the transaction gets that far. */
  ghost predicate Queried(t: Tables, event: Claim, now: Readings, devices: seq<DeviceId>, consumers: set<Consumer>) {
    Fenced(t.events, event, now.start) ==>
      match Open(t, event)
      case Stop(_) => true
      case Proceed(ready) => QueriedRows(ready, event, now, devices, consumers)
  }

  ghost predicate QueriedRows(ready: Tables, event: Claim, now: Readings, devices: seq<DeviceId>, consumers: set<Consumer>) {
    && FirstDevices(devices, MissingDevices(ready, event))
    && ConsumerBatch(consumers, MissingConsumers(ready, event.row.info.effectKey, now.query))
  }

  // ---- Discarding rows ----

  predicate NoDuplicates(rows: seq<DeliveryRow>) {
    forall i, j :: 0 <= i < j < |rows| ==> rows[i] != rows[j]
  }

  lemma {:induction false} RowsNotOfExact(rows: seq<DeliveryRow>, key: Key)
    ensures forall r :: r in RowsNotOf(rows, key) <==> r in rows && r.key != key
    ensures NoDuplicates(rows) ==> NoDuplicates(RowsNotOf(rows, key))
    decreases |rows|
  {
    if rows != [] {
      var front, last := rows[..|rows| - 1], rows[|rows| - 1];
      RowsNotOfExact(front, key);
      assert forall r :: r in rows <==> r in front || r == last;
      if NoDuplicates(rows) {
        assert last !in front;
      }
    }
  }

  // ---- The snapshot invariant ----

  /** Every row belongs to an effect and to a recipient of the event that owns the effect. */
  ghost predicate Snapshot(t: Tables) {
    && (forall key :: key in t.effects ==>
          && t.effects[key].eventId in t.events
          && t.events[t.effects[key].eventId].info.effectKey == key)
    && NoDuplicates(t.deliveries)
    && (forall row :: row in t.deliveries ==>
          row.key in t.effects && row.deviceId in t.events[t.effects[row.key].eventId].info.recipients)
    && (forall p :: p in t.targets ==> p.0 in t.effects)
  }

  /** The worker's copy agrees with the table on what never changes. */
  predicate Genuine(t: Tables, event: Claim) {
    event.id in t.events && t.events[event.id].info == event.row.info
  }

  lemma DiscardKeeps(t: Tables, key: Key)
    requires Snapshot(t)
    ensures Snapshot(Discard(t, key))
    ensures forall row :: row in Discard(t, key).deliveries ==> row.key != key
  {
    RowsNotOfExact(t.deliveries, key);
  }

  lemma OpenKeeps(t: Tables, event: Claim)
    requires Snapshot(t) && Genuine(t, event) && Open(t, event).Proceed?
    ensures var ready := Open(t, event).tables;
            && Snapshot(ready) && ready.events == t.events
            && ready.devices == t.devices && ready.consumers == t.consumers
            && event.row.info.effectKey in ready.effects
            && ready.effects[event.row.info.effectKey].eventId == event.id
            && ready.effects[event.row.info.effectKey].preparedAt.None?
  {
    var key := event.row.info.effectKey;
    if key in t.effects && t.effects[key].eventId != event.id {
      DiscardKeeps(t, key);
    }
  }

  lemma AddDevicesKeeps(t: Tables, event: Claim, devices: seq<DeviceId>)
    requires Snapshot(t) && Genuine(t, event)
    requires event.row.info.effectKey in t.effects && t.effects[event.row.info.effectKey].eventId == event.id
    requires FirstDevices(devices, MissingDevices(t, event))
    ensures Snapshot(t.(deliveries := t.deliveries + RowsFor(event.row.info.effectKey, devices)))
  {
    var key := event.row.info.effectKey;
    var added := RowsFor(key, devices);
    var rows := t.deliveries + added;
    forall i | 0 <= i < |added| ensures added[i] !in t.deliveries && devices[i] in event.row.info.recipients {
      assert devices[i] in MissingDevices(t, event);
    }
    forall i, j | 0 <= i < j < |rows| ensures rows[i] != rows[j] {
      if j >= |t.deliveries| {
        assert rows[j] == added[j - |t.deliveries|];
        if i >= |t.deliveries| {
          assert devices[i - |t.deliveries|] < devices[j - |t.deliveries|];
        }
      }
    }
  }

  lemma PrepareKeepsSnapshot(t: Tables, event: Claim, now: Readings, devices: seq<DeviceId>, consumers: set<Consumer>)
    requires Snapshot(t) && Genuine(t, event) && Queried(t, event, now, devices, consumers)
    ensures Snapshot(PrepareBatch(t, event, now, devices, consumers).0)
    ensures PrepareBatch(t, event, now, devices, consumers).0.events == t.events
  {
    if Fenced(t.events, event, now.start) && Open(t, event).Proceed? {
      OpenKeeps(t, event);
      var ready := Open(t, event).tables;
      if devices != [] {
        AddDevicesKeeps(ready, event, devices);
      }
    }
  }

  // ---- What being prepared means ----

  /** When the batch that finishes commits, every listed device that exists has its row and every
      live consumer its target; by the invariant there are no others and no row twice. */
  lemma PreparedIsComplete(t: Tables, event: Claim, now: Readings, devices: seq<DeviceId>, consumers: set<Consumer>)
    requires Snapshot(t) && Genuine(t, event) && Queried(t, event, now, devices, consumers)
    requires var key := event.row.info.effectKey;
             var after := PrepareBatch(t, event, now, devices, consumers).0;
             key in after.effects && after.effects[key].preparedAt.Some?
             && !(key in t.effects && t.effects[key].preparedAt.Some?)
    ensures var key := event.row.info.effectKey;
            var (after, outcome) := PrepareBatch(t, event, now, devices, consumers);
            && outcome == Done(false) && after.effects[key].eventId == event.id
            && (forall d :: d in event.row.info.recipients && d in after.devices ==> DeliveryRow(key, d) in after.deliveries)
            && (forall d :: DeliveryRow(key, d) in after.deliveries ==> d in event.row.info.recipients)
            && (forall c :: c in after.consumers && after.consumers[c] > now.query ==> (key, c) in after.targets)
  {
    var key := event.row.info.effectKey;
    OpenKeeps(t, event);
    var ready := Open(t, event).tables;
    PrepareKeepsSnapshot(t, event, now, devices, consumers);
    assert devices == [] && consumers == {};
    assert MissingDevices(ready, event) == {} && MissingConsumers(ready, key, now.query) == {};
    forall d | d in event.row.info.recipients && d in t.devices ensures DeliveryRow(key, d) in ready.deliveries {
      assert d !in MissingDevices(ready, event);
    }
    forall c | c in t.consumers && t.consumers[c] > now.query ensures (key, c) in ready.targets {
      assert c !in MissingConsumers(ready, key, now.query);
    }
  }

  /** Rows left to insert for an event's effect. */
  function Remaining(t: Tables, event: Claim, now: int): nat {
    |MissingDevices(t, event)| + |MissingConsumers(t, event.row.info.effectKey, now)|
  }

  lemma FewerMissing<T>(before: set<T>, after: set<T>, gone: set<T>)
    requires after <= before && gone <= before && gone * after == {} && gone != {}
    ensures |after| < |before|
  {
    assert after + gone <= before;
    assert after * gone == {};
    assert |after + gone| == |after| + |gone|;
    assert before == (after + gone) + (before - (after + gone));
  }

  lemma SubsetSize<T>(a: set<T>, b: set<T>)
    requires a <= b
    ensures |a| <= |b|
  {
    assert b == a + (b - a);
  }

  lemma DevicesMakeProgress(t: Tables, event: Claim, devices: seq<DeviceId>, now: int, later: int)
    requires devices != [] && FirstDevices(devices, MissingDevices(t, event)) && now <= later
    ensures var after := t.(deliveries := t.deliveries + RowsFor(event.row.info.effectKey, devices));
            Remaining(after, event, later) < Remaining(t, event, now)
  {
    var key := event.row.info.effectKey;
    var after := t.(deliveries := t.deliveries + RowsFor(key, devices));
    assert RowsFor(key, devices)[0] == DeliveryRow(key, devices[0]);
    assert RowsFor(key, devices)[0] in after.deliveries;
    FewerMissing(MissingDevices(t, event), MissingDevices(after, event), {devices[0]});
    SubsetSize(MissingConsumers(after, key, later), MissingConsumers(t, key, now));
  }

  lemma ConsumersMakeProgress(t: Tables, event: Claim, consumers: set<Consumer>, now: int, later: int)
    requires consumers != {} && consumers <= MissingConsumers(t, event.row.info.effectKey, now) && now <= later
    ensures var after := t.(targets := t.targets + map c | c in consumers :: (event.row.info.effectKey, c) := NEW_TARGET);
            Remaining(after, event, later) < Remaining(t, event, now)
  {
    var key := event.row.info.effectKey;
    var after := t.(targets := t.targets + map c | c in consumers :: (key, c) := NEW_TARGET);
    forall c | c in consumers ensures (key, c) in after.targets {
    }
    FewerMissing(MissingConsumers(t, key, now), MissingConsumers(after, key, later), consumers);
    assert MissingDevices(after, event) == MissingDevices(t, event);
  }

  /** As time passes consumers only expire. */
  lemma RemainingShrinks(t: Tables, event: Claim, early: int, late: int)
    requires early <= late
    ensures Remaining(t, event, late) <= Remaining(t, event, early)
  {
    var key := event.row.info.effectKey;
    SubsetSize(MissingConsumers(t, key, late), MissingConsumers(t, key, early));
  }

  /** With devices and consumers fixed, every unfinished batch leaves strictly fewer rows to insert,
      and the next one resumes exactly there. */
  lemma BatchMakesProgress(t: Tables, event: Claim, now: Readings, later: int, devices: seq<DeviceId>, consumers: set<Consumer>)
    requires Open(t, event).Proceed? && Queried(t, event, now, devices, consumers) && now.query <= later
    requires Snapshot(t) && Genuine(t, event) && PrepareBatch(t, event, now, devices, consumers).1 == More
    ensures var after := PrepareBatch(t, event, now, devices, consumers).0;
            && Open(after, event) == Proceed(after)
            && Remaining(after, event, later) < Remaining(Open(t, event).tables, event, now.query)
  {
    OpenKeeps(t, event);
    if devices != [] {
      DevicesMakeProgress(Open(t, event).tables, event, devices, now.query, later);
    } else {
      ConsumersMakeProgress(Open(t, event).tables, event, consumers, now.query, later);
    }
  }
}
