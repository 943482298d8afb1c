/**
 The store object: its tables are fields that each method reads and rewrites. Every method is
 proved against the step functions of Outbox and Fanout.
 */
module OutboxStore {
  import opened Base
  import opened Queues
  import opened Outbox
  import opened Fanout

  function IdsOf(rows: seq<EventId>): set<EventId> {
    set id | id in rows
  }

  class Store {
    var events: Events
    var effects: map<Key, Effect>
    var deliveries: seq<DeliveryRow>
    var targets: map<(Key, Consumer), Target>
    var consumers: map<Consumer, int>
    var devices: set<DeviceId>
    // The process clock, as far as it has been read.
    var clock: int

    ghost function Contents(): Tables
      reads this
    {
      Tables(events, effects, deliveries, targets, consumers, devices)
    }

    /** new Date(): any time that is not before the last reading. */
    method ReadClock() returns (now: int)
      modifies this`clock
      ensures old(clock) <= now == clock
    {
      now :| clock <= now;
      clock := now;
    }

    // ---- claim ----

    method Claim(owner: Owner, token: Token, now: int, filter: Filter, budgets: seq<Budget>, leaseNow: int)
      returns (result: Result<Option<Claim>, ()>, ghost batch: set<EventId>, ghost candidate: Option<EventId>)
      modifies this`events
      ensures !ValidBudgets(budgets) ==> result == Err(()) && events == old(events)
      ensures ValidBudgets(budgets) && !HasCapacity(old(events), budgets, now) ==> result == Ok(None) && events == old(events)
      ensures ValidBudgets(budgets) && HasCapacity(old(events), budgets, now) ==>
                && Selected(old(events), Narrowed(filter, budgets), now, batch, candidate)
                && (candidate.Some? ==> candidate.value in old(events))
                && var (after, claim) := Claimed(old(events), batch, candidate, owner, token, now, leaseNow);
                   events == after && result == Ok(claim)
    {
      batch, candidate := {}, None;
      if |budgets| > 8 || exists i :: 0 <= i < |budgets| && budgets[i].limit < 1 {
        return Err(()), batch, candidate;
      }
      var i := 0;
      while i < |budgets|
        invariant 0 <= i <= |budgets|
        invariant forall j :: 0 <= j < i ==> |ActiveIds(events, budgets[j].group, now)| < budgets[j].limit
      {
        var active := |ActiveIds(events, budgets[i].group, now)|;
        if active >= budgets[i].limit {
          return Ok(None), batch, candidate;
        }
        i := i + 1;
      }
      var claimed;
      claimed, batch, candidate := ClaimFrom(owner, token, now, Narrowed(filter, budgets), leaseNow);
      result := Ok(claimed);
    }

    method ClaimFrom(owner: Owner, token: Token, now: int, filter: Filter, leaseNow: int)
      returns (claimed: Option<Claim>, ghost batch: set<EventId>, ghost candidate: Option<EventId>)
      modifies this`events
      ensures Selected(old(events), filter, now, batch, candidate)
      ensures candidate.Some? ==> candidate.value in old(events)
      ensures (events, claimed) == Claimed(old(events), batch, candidate, owner, token, now, leaseNow)
    {
      ghost var before := events;
      batch := BuryExhausted(filter, now);
      BuryingKeepsClaimable(before, filter, now, batch);
      var first := FindFirst(filter, now);
      FirstAmong(before, events, ClaimableIds(events, filter, now), first);
      candidate := first;
      if first.None? {
        return None, batch, candidate;
      }
      var id := first.value;
      var attempts := events[id].attempts;
      // The compare-and-set of the source; nothing can come between within one transaction.
      if !(Eligible(id, events[id], filter, now) && events[id].attempts == attempts) {
        assert false;
        return None, batch, candidate;
      }
      events := events[id := ClaimedRow(events[id], owner, token, now, leaseNow)];
      claimed := Some(Outbox.Claim(id, events[id]));
    }

    /** take: BATCH_SIZE, in no particular order. */
    static method TakeBatch(all: set<EventId>) returns (batch: seq<EventId>)
      ensures Taken(IdsOf(batch), all, BATCH_SIZE)
    {
      var rest := all;
      batch := [];
      ghost var taken: set<EventId> := {};
      while |batch| < BATCH_SIZE && rest != {}
        invariant |batch| == |taken| <= BATCH_SIZE && taken == IdsOf(batch)
        invariant taken !! rest && taken + rest == all
        decreases |rest|
      {
        var id :| id in rest;
        rest, batch, taken := rest - {id}, batch + [id], taken + {id};
      }
      Sizes(taken, rest);
      assert all == taken + rest && IdsOf(batch) == taken;
    }

    method BuryExhausted(filter: Filter, now: int) returns (ghost batch: set<EventId>)
      modifies this`events
      ensures Taken(batch, ExhaustedIds(old(events), filter, now), BATCH_SIZE)
      ensures events == Bury(old(events), batch, now)
    {
      ghost var before := events;
      var rows := TakeBatch(ExhaustedIds(events, filter, now));
      batch := IdsOf(rows);
      var i := 0;
      ghost var buried: set<EventId> := {};
      while i < |rows|
        invariant 0 <= i <= |rows| && buried == IdsOf(rows[..i])
        invariant events == Bury(before, buried, now)
      {
        var id := rows[i];
        assert id in ExhaustedIds(before, filter, now);
        if Exhausted(id, events[id], filter, now) {
          BuryOneMore(before, buried, id, now);
          events := events[id := BuriedRow(events[id], now)];
        }
        assert rows[..i + 1] == rows[..i] + [id];
        buried := buried + {id};
        i := i + 1;
      }
      assert rows[..i] == rows;
    }

    /** orderBy occurredAt, eventId; take the first. */
    method FindFirst(filter: Filter, now: int) returns (first: Option<EventId>)
      ensures match first
              case None => ClaimableIds(events, filter, now) == {}
              case Some(id) => IsFirst(events, ClaimableIds(events, filter, now), id)
    {
      var rest := ClaimableIds(events, filter, now);
      if rest == {} {
        return None;
      }
      var best :| best in rest;
      ghost var seen: set<EventId> := {};
      while rest != {}
        invariant seen + rest == ClaimableIds(events, filter, now) && best in seen + rest
        invariant forall id :: id in seen ==> NotAfter(events, best, id)
        decreases |rest|
      {
        var id :| id in rest;
        rest, seen := rest - {id}, seen + {id};
        if !NotAfter(events, best, id) {
          best := id;
        }
      }
      first := Some(best);
    }

    // ---- settle ----

    method Current(event: Claim, now: int) returns (row: Option<Row>)
      ensures row == if Fenced(events, event, now) then Some(events[event.id]) else None
    {
      if Fenced(events, event, now) {
        return Some(events[event.id]);
      }
      return None;
    }

    method Acknowledge(event: Claim, now: int) returns (acknowledged: bool)
      modifies this`events, this`effects
      ensures acknowledged == old(Fenced(events, event, now))
      ensures events == Ack(old(events), event, now)
      ensures effects.Keys == old(effects.Keys)
      ensures forall key :: key in effects ==>
                effects[key] == if acknowledged && old(effects[key].eventId) == event.id
                                then old(effects[key]).(completedAt := Some(now)) else old(effects[key])
    {
      if !Fenced(events, event, now) {
        return false;
      }
      events := events[event.id := Acknowledged(events[event.id], now)];
      effects := map key | key in effects ::
        if effects[key].eventId == event.id then effects[key].(completedAt := Some(now)) else effects[key];
      return true;
    }

    method Reject(event: Claim, code: ErrorCode, now: int, sample: real) returns (result: Result<bool, ()>)
      modifies this`events
      ensures result == if 0.0 <= sample <= 1.0 then Ok(old(Fenced(events, event, now))) else Err(())
      ensures events == Fail(old(events), event, code, now, sample)
    {
      var delay := RetryDelay(event.row.attempts, sample);
      if delay.Err? {
        return Err(());
      }
      if !Fenced(events, event, now) {
        return Ok(false);
      }
      events := events[event.id := FailedRow(events[event.id], event, code, now, delay.value)];
      return Ok(true);
    }

    // ---- consumers ----

    method Register(consumer: Consumer, now: int)
      modifies this`consumers
      ensures consumers == old(consumers)[consumer := now + CONSUMER_LEASE_MS]
    {
      consumers := consumers[consumer := now + CONSUMER_LEASE_MS];
    }

    method Unregister(consumer: Consumer)
      modifies this`consumers
      ensures consumers == old(consumers) - {consumer}
    {
      consumers := consumers - {consumer};
    }

    // ---- prepare ----

    /** ORDER BY id LIMIT 64. */
    static method TakeAscending(all: set<DeviceId>) returns (batch: seq<DeviceId>)
      ensures FirstDevices(batch, all)
    {
      var rest := all;
      batch := [];
      while |batch| < PREPARE_BATCH && rest != {}
        invariant |batch| + |rest| == |all| && |batch| <= PREPARE_BATCH
        invariant forall i :: 0 <= i < |batch| ==> batch[i] in all && batch[i] !in rest
        invariant forall d :: d in all <==> d in rest || d in batch
        invariant forall i, j :: 0 <= i < j < |batch| ==> batch[i] < batch[j]
        invariant forall d, i :: d in rest && 0 <= i < |batch| ==> batch[i] < d
        decreases |rest|
      {
        var least := Least(rest);
        rest, batch := rest - {least}, batch + [least];
      }
    }

    static method Least(ids: set<DeviceId>) returns (least: DeviceId)
      requires ids != {}
      ensures least in ids && forall d :: d in ids ==> least <= d
    {
      var first :| first in ids;
      least := first;
      var rest := ids;
      ghost var seen: set<DeviceId> := {};
      while rest != {}
        invariant seen + rest == ids && least in ids
        invariant forall d :: d in seen ==> least <= d
        decreases |rest|
      {
        var d :| d in rest;
        rest, seen := rest - {d}, seen + {d};
        if d < least {
          least := d;
        }
      }
    }

    static method TakeConsumers(all: set<Consumer>) returns (batch: set<Consumer>)
      ensures ConsumerBatch(batch, all)
    {
      var rest := all;
      batch := {};
      while |batch| < PREPARE_BATCH && rest != {}
        invariant batch !! rest && batch + rest == all && |batch| <= PREPARE_BATCH
        decreases |rest|
      {
        var c :| c in rest;
        rest, batch := rest - {c}, batch + {c};
      }
      Sizes(batch, rest);
      assert all == batch + rest;
    }

    /** One transaction: its writes reach the tables only if the fence still holds at the end. */
    method PrepareBatch(event: Claim) returns (outcome: Outcome, ghost now: Readings, ghost rows: seq<DeviceId>, ghost added: set<Consumer>)
      modifies this
      ensures Queried(old(Contents()), event, now, rows, added)
      ensures (Contents(), outcome) == Fanout.PrepareBatch(old(Contents()), event, now, rows, added)
      ensures old(clock) <= now.query <= clock
    {
      rows, added := [], {};
      var start := ReadClock();
      now := Readings(start, start, start, start);
      if !Fenced(events, event, start) {
        return ClaimExpired, now, rows, added;
      }
      var opening := Open(Tables(events, effects, deliveries, targets, consumers, devices), event);
      if opening.Stop? {
        if opening.outcome == EffectIncomplete {
          return EffectIncomplete, now, rows, added;
        }
        var end := ReadClock();
        now := now.(end := end);
        outcome := if Fenced(events, event, end) then opening.outcome else ClaimExpired;
        return outcome, now, rows, added;
      }
      outcome, now, rows, added := WriteBatch(opening.tables, event, start);
    }

    /** The writes of a transaction, and the fence before they count. */
    method WriteBatch(ready: Tables, event: Claim, start: int)
      returns (outcome: Outcome, ghost now: Readings, ghost rows: seq<DeviceId>, ghost added: set<Consumer>)
      requires ready.events == events && ready.consumers == consumers && ready.devices == devices
      modifies this
      ensures now.start == start && old(clock) <= now.query <= clock
      ensures QueriedRows(ready, event, now, rows, added)
      ensures (Contents(), outcome) == if !Fenced(ready.events, event, now.end) then (old(Contents()), ClaimExpired)
                                       else AddRows(ready, event, rows, added, now.prepared)
    {
      var after;
      after, outcome, now, rows, added := InsertRows(ready, event, start);
      var end := ReadClock();
      now := now.(end := end);
      if !Fenced(events, event, end) {
        return ClaimExpired, now, rows, added;
      }
      effects, deliveries, targets := after.effects, after.deliveries, after.targets;
    }

    /** The two queries of a transaction and the rows they lead to. */
    method InsertRows(ready: Tables, event: Claim, start: int)
      returns (after: Tables, outcome: Outcome, ghost now: Readings, ghost rows: seq<DeviceId>, ghost added: set<Consumer>)
      modifies this`clock
      ensures now.start == start && old(clock) <= now.query <= clock
      ensures QueriedRows(ready, event, now, rows, added)
      ensures (after, outcome) == AddRows(ready, event, rows, added, now.prepared)
    {
      var key := event.row.info.effectKey;
      var missing := TakeAscending(MissingDevices(ready, event));
      var query := ReadClock();
      var waiting := TakeConsumers(MissingConsumers(ready, key, query));
      var prepared := ReadClock();
      now, rows, added := Readings(start, query, prepared, prepared), missing, waiting;
      if missing != [] {
        after, outcome := ready.(deliveries := ready.deliveries + RowsFor(key, missing)), More;
      } else if waiting != {} {
        after, outcome := ready.(targets := ready.targets + map c | c in waiting :: (key, c) := NEW_TARGET), More;
      } else {
        after, outcome := ready, Done(false);
        if key in ready.effects {
          after := ready.(effects := ready.effects[key := ready.effects[key].(preparedAt := Some(prepared))]);
        }
      }
    }

    /** The batch loop of one worker always ends; it marks an effect prepared only when every listed
        device that exists has its row. */
    method Prepare(event: Claim) returns (outcome: Outcome)
      requires Snapshot(Contents()) && Genuine(Contents(), event)
      modifies this
      ensures Snapshot(Contents()) && events == old(events) && consumers == old(consumers) && devices == old(devices)
      ensures outcome != More
      ensures outcome == Done(false) && !old(IsPrepared(effects, event.row.info.effectKey)) ==>
                Complete(Contents(), event)
    {
      var key := event.row.info.effectKey;
      ghost var budget := 0;
      ghost var begun := false;
      while true
        invariant Snapshot(Contents()) && Genuine(Contents(), event)
        invariant events == old(events) && consumers == old(consumers) && devices == old(devices)
        invariant begun ==> Resumes(Contents(), event) && budget == Remaining(Contents(), event, clock)
        invariant !begun ==> effects == old(effects)
        decreases !begun, budget
      {
        ghost var before, early := Contents(), clock;
        ghost var now, rows, added;
        outcome, now, rows, added := PrepareBatch(event);
        BatchOfLoop(before, event, early, now, clock, rows, added, Contents(), outcome);
        if outcome != More {
          return;
        }
        budget := Remaining(Contents(), event, clock);
        begun := true;
      }
    }

    // ---- targets ----

    method BeginTarget(key: Key, consumer: Consumer, event: Claim, now: int) returns (begun: bool)
      modifies this`targets
      ensures begun ==> Fenced(events, event, now) && (key, consumer) in targets && targets[(key, consumer)].attemptToken == event.row.claimToken
      ensures targets == if Fenced(events, event, now) then Begun(old(targets), (key, consumer), event.row.claimToken) else old(targets)
      ensures !begun ==> targets == old(targets)
    {
      var row := Current(event, now);
      var p := (key, consumer);
      if row.None? || p !in targets || targets[p].delivered {
        return false;
      }
      if targets[p].attemptToken.Some? && targets[p].attemptToken == event.row.claimToken {
        return false;
      }
      targets := targets[p := targets[p].(attemptToken := event.row.claimToken, failed := false)];
      return true;
    }

    method FinishTarget(key: Key, consumer: Consumer, event: Claim, success: bool, now: int) returns (finished: bool)
      modifies this`targets
      ensures finished <==> Fenced(events, event, now) && (key, consumer) in old(targets)
                            && event.row.claimToken.Some? && old(targets)[(key, consumer)].attemptToken == event.row.claimToken
      ensures targets == if Fenced(events, event, now) then Finished(old(targets), (key, consumer), event.row.claimToken, success) else old(targets)
    {
      var p := (key, consumer);
      if !Fenced(events, event, now) || p !in targets || event.row.claimToken.None? || targets[p].attemptToken != event.row.claimToken {
        return false;
      }
      targets := targets[p := targets[p].(delivered := success, failed := !success)];
      return true;
    }

    /** All targets of live consumers are delivered; a dead consumer has no sockets left. */
    method TargetsComplete(key: Key, now: int) returns (complete: bool)
      ensures complete <==> AllDelivered(targets, consumers, key, now)
    {
      var open := set p | p in targets && p.0 == key && !targets[p].delivered && p.1 in consumers && consumers[p.1] > now;
      complete := |open| == 0;
      if complete {
        forall p | p in targets && p.0 == key && p.1 in consumers && consumers[p.1] > now ensures targets[p].delivered {
          assert p !in open;
        }
      } else {
        var p :| p in open;
        assert p in targets && !targets[p].delivered;
      }
    }
  }

  predicate IsPrepared(effects: map<Key, Effect>, key: Key) {
    key in effects && effects[key].preparedAt.Some?
  }

  /** The effect is the event's own, prepared, with one row for every listed device that exists. */
  ghost predicate Complete(t: Tables, event: Claim) {
    var key := event.row.info.effectKey;
    && IsPrepared(t.effects, key) && t.effects[key].eventId == event.id
    && (forall d :: d in event.row.info.recipients && d in t.devices ==> DeliveryRow(key, d) in t.deliveries)
    && (forall d :: DeliveryRow(key, d) in t.deliveries ==> d in event.row.info.recipients)
  }

  /** The next batch of this event goes on from these tables. */
  ghost predicate Resumes(t: Tables, event: Claim) {
    Open(t, event) == Proceed(t)
  }

  ghost predicate Kept(t: Tables, after: Tables) {
    Snapshot(after) && after.events == t.events && after.consumers == t.consumers && after.devices == t.devices
  }

  lemma BatchKeeps(t: Tables, event: Claim, now: Readings, devices: seq<DeviceId>, consumers: set<Consumer>)
    requires Snapshot(t) && Genuine(t, event) && Queried(t, event, now, devices, consumers)
    ensures Kept(t, Fanout.PrepareBatch(t, event, now, devices, consumers).0)
  {
    PrepareKeepsSnapshot(t, event, now, devices, consumers);
    BatchLeaves(t, event, now, devices, consumers);
  }

  lemma BatchLeaves(t: Tables, event: Claim, now: Readings, devices: seq<DeviceId>, consumers: set<Consumer>)
    ensures var after := Fanout.PrepareBatch(t, event, now, devices, consumers).0;
            after.events == t.events && after.consumers == t.consumers && after.devices == t.devices
  {
  }

  /** What the loop knows of each batch. */
  lemma BatchOfLoop(t: Tables, event: Claim, early: int, now: Readings, late: int, devices: seq<DeviceId>, consumers: set<Consumer>,
                    after: Tables, outcome: Outcome)
    requires Snapshot(t) && Genuine(t, event) && Queried(t, event, now, devices, consumers)
    requires early <= now.query <= late
    requires (after, outcome) == Fanout.PrepareBatch(t, event, now, devices, consumers)
    ensures Kept(t, after)
    ensures outcome == More ==> Resumes(after, event)
    ensures outcome == More && Resumes(t, event) ==> Remaining(after, event, late) < Remaining(t, event, early)
    ensures outcome == Done(false) && (Resumes(t, event) || !IsPrepared(t.effects, event.row.info.effectKey)) ==> Complete(after, event)
  {
    BatchKeeps(t, event, now, devices, consumers);
    if outcome == More {
      UnfinishedBatch(t, event, early, now, late, devices, consumers);
    }
    if outcome == Done(false) && (Resumes(t, event) || !IsPrepared(t.effects, event.row.info.effectKey)) {
      LastBatch(t, event, now, devices, consumers);
    }
  }

  lemma UnfinishedBatch(t: Tables, event: Claim, early: int, now: Readings, late: int, devices: seq<DeviceId>, consumers: set<Consumer>)
    requires Snapshot(t) && Genuine(t, event) && Queried(t, event, now, devices, consumers)
    requires early <= now.query <= late
    requires Fanout.PrepareBatch(t, event, now, devices, consumers).1 == More
    ensures var after := Fanout.PrepareBatch(t, event, now, devices, consumers).0;
            Resumes(after, event) && (Resumes(t, event) ==> Remaining(after, event, late) < Remaining(t, event, early))
  {
    BatchMakesProgress(t, event, now, late, devices, consumers);
    RemainingShrinks(t, event, early, now.query);
  }

  lemma LastBatch(t: Tables, event: Claim, now: Readings, devices: seq<DeviceId>, consumers: set<Consumer>)
    requires Snapshot(t) && Genuine(t, event) && Queried(t, event, now, devices, consumers)
    requires Fanout.PrepareBatch(t, event, now, devices, consumers).1 == Done(false)
    requires Resumes(t, event) || !IsPrepared(t.effects, event.row.info.effectKey)
    ensures Complete(Fanout.PrepareBatch(t, event, now, devices, consumers).0, event)
  {
    OpenKeeps(t, event);
    PreparedIsComplete(t, event, now, devices, consumers);
  }

  lemma Sizes<T>(a: set<T>, b: set<T>)
    requires a !! b
    ensures |a + b| == |a| + |b|
  {
    assert a * b == {};
  }

  lemma BuryOneMore(before: Events, batch: set<EventId>, id: EventId, now: int)
    requires id in before
    ensures var buried := Bury(before, batch, now);
            id !in batch ==> buried[id := BuriedRow(buried[id], now)] == Bury(before, batch + {id}, now)
  {
  }

  lemma BuryingKeepsClaimable(before: Events, filter: Filter, now: int, batch: set<EventId>)
    requires batch <= ExhaustedIds(before, filter, now)
    ensures ClaimableIds(Bury(before, batch, now), filter, now) == ClaimableIds(before, filter, now)
  {
    var after := Bury(before, batch, now);
    forall id | id in before
      ensures Claimable(id, after[id], filter, now) <==> Claimable(id, before[id], filter, now)
    {
    }
  }

  lemma FirstAmong(before: Events, after: Events, ids: set<EventId>, first: Option<EventId>)
    requires ids <= before.Keys && before.Keys == after.Keys
    requires forall id :: id in before ==> before[id].occurredAt == after[id].occurredAt
    requires first.Some? ==> IsFirst(after, ids, first.value)
    ensures first.Some? ==> IsFirst(before, ids, first.value)
  {
    if first.Some? {
      forall other | other in ids ensures NotAfter(before, first.value, other) {
        assert NotAfter(after, first.value, other);
      }
    }
  }
}
