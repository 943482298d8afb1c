/**
 The federation services' writes as an object: scheduling, importing and persisting rewrite the tables
 one statement after another, and a failing transaction puts them back.
 */
module RemoteStore {
  import opened Base
  import opened RemoteSync

  class Store {
    var server: string
    var publication: string
    var trusted: bool
    var subscription: Subscription
    var completed: map<JobId, bool>
    var events: map<JobId, Event>
    var effects: set<JobId>
    var cache: seq<Local>
    var devices: map<nat, Device>

    function Tables(): World
      reads this
    {
      World(server, publication, trusted, subscription, completed, events, effects, cache, devices)
    }

    /** The job of a version that still has to deliver, if there is one. */
    method FindActive(version: nat) returns (active: Option<JobId>)
      ensures active.Some? <==> HasActive(Tables(), version)
      ensures active.Some? ==> Active(Tables(), active.value) && active.value.version == version
    {
      var rest := completed.Keys;
      while rest != {}
        invariant rest <= completed.Keys
        invariant forall id :: id in completed && id.version == version && Active(Tables(), id) ==> id in rest
        decreases |rest|
      {
        var id :| id in rest;
        if id.version == version && !completed[id] && id in events && Live(events[id]) {
          return Some(id);
        }
        rest := rest - {id};
      }
      return None;
    }

    method Schedule(now: int, force: bool)
      modifies this`subscription, this`completed, this`events
      ensures Tables() == ScheduleRemote(old(Tables()), now, force)
    {
      if !subscription.enabled || (!force && subscription.nextSyncAt > now) {
        return;
      }
      var active := FindActive(subscription.version);
      if active.Some? {
        return;
      }
      var due := DueTime(subscription, now, force);
      var id := JobId(subscription.version, due);
      if id in effects {
        return;
      }
      if id !in events {
        events := events[id := Event(Pending, 0, due)];
      }
      if id !in completed {
        completed := completed[id := false];
      }
      subscription := subscription.(nextSyncAt := due + subscription.intervalMs);
    }

    method UpdateSubscription(enabled: Option<bool>, now: int) returns (updated: bool)
      modifies this`subscription, this`completed, this`events
      ensures Tables() == Update(old(Tables()), enabled, now)
      ensures updated <==> old(subscription.version) < MAX_VERSION
    {
      if subscription.version >= MAX_VERSION {
        return false;
      }
      subscription := subscription.(
        enabled := if enabled.Some? then enabled.value else subscription.enabled,
        version := subscription.version + 1, nextSyncAt := now, circuitOpenUntil := None, failures := 0);
      SupersedePending();
      Schedule(now, false);
      return true;
    }

    method SupersedePending()
      modifies this`events
      ensures events == Superseded(old(events))
    {
      ghost var before := events;
      var rest := events.Keys;
      while rest != {}
        invariant rest <= before.Keys == events.Keys
        invariant forall id :: id in before ==> events[id] == if id in rest then before[id] else Superseded(before)[id]
        decreases |rest|
      {
        var id :| id in rest;
        if events[id].status.Pending? {
          events := events[id := events[id].(status := Delivered)];
        }
        rest := rest - {id};
      }
      assert events == Superseded(before);
    }

    /** Cache and device writes of one import; nothing is written before every check has passed. */
    method Import(feed: Feed, artifacts: seq<string>) returns (local: Result<nat, Code>)
      modifies this`cache, this`devices
      ensures match Imported(old(Tables()), feed, artifacts)
              case Err(e) => local == Err(e) && Tables() == old(Tables())
              case Ok((after, id)) => local == Ok(id) && Tables() == after
    {
      if artifacts != feed.artifacts {
        return Err(HashMismatch);
      }
      if !trusted || feed.server != server {
        return Err(IdentityMismatch);
      }
      if feed.publication != publication {
        return Err(PublicationMismatch);
      }
      if Conflicts(subscription, feed) {
        return Err(RevisionConflict);
      }
      if Reusable(Tables(), feed, artifacts) {
        return Ok(subscription.latestLocal.value);
      }
      cache := cache + [Local(feed, artifacts, true)];
      MoveFollowers(|cache| - 1);
      return Ok(|cache| - 1);
    }

    method MoveFollowers(local: nat)
      modifies this`devices
      ensures devices == map d | d in old(devices) ::
                if Follows(old(devices)[d]) then old(devices)[d].(desired := Ours(local)) else old(devices)[d]
    {
      ghost var before := devices;
      var rest := devices.Keys;
      while rest != {}
        invariant rest <= before.Keys == devices.Keys
        invariant forall d :: d in before ==>
                    devices[d] == if d !in rest && Follows(before[d]) then before[d].(desired := Ours(local)) else before[d]
        decreases |rest|
      {
        var d :| d in rest;
        if Follows(devices[d]) {
          devices := devices[d := devices[d].(desired := Ours(local))];
        }
        rest := rest - {d};
      }
    }

    method Restore(saved: World)
      requires saved.server == server && saved.publication == publication && saved.trusted == trusted
      modifies this
      ensures Tables() == saved
    {
      subscription, completed, events, effects := saved.subscription, saved.completed, saved.events, saved.effects;
      cache, devices := saved.cache, saved.devices;
    }

    method Complete(id: JobId)
      modifies this`completed, this`effects
      ensures Tables() == Completed(old(Tables()), id)
    {
      completed := completed[id := true];
      effects := effects + {id};
    }

    /** The worker's fenced transaction. */
    method PersistResult(id: JobId, token: Token, download: Option<Download>, code: Option<Code>, m: Moment, cancelled: bool)
      returns (result: Result<(), Code>)
      modifies this
      ensures match Persist(old(Tables()), id, token, download, code, m, cancelled)
              case Err(e) => result == Err(e) && Tables() == old(Tables())
              case Ok(after) => result.Ok? && Tables() == after
    {
      if !Fenced(Tables(), id, token) || !m.leased || id !in completed {
        return Err(StaleClaim);
      }
      if completed[id] {
        return Ok(());
      }
      if cancelled || !subscription.enabled || subscription.version != id.version {
        Complete(id);
        return Ok(());
      }
      var saved := Tables();
      var (accepted, reason) := Accepted(saved, download, code, m.aborted);
      result := Apply(id, accepted, reason, m);
      if result.Ok? && accepted.Some? && m.abortedLater {
        result := Err(Aborted);
      } else if result.Ok? && !m.stillLeased {
        result := Err(StaleClaim);
      }
      if result.Err? {
        Restore(saved);
      }
    }

    method Apply(id: JobId, accepted: Option<Download>, reason: Option<Code>, m: Moment) returns (result: Result<(), Code>)
      requires id in events
      modifies this`subscription, this`completed, this`events, this`effects, this`cache, this`devices
      ensures match Outcome(old(Tables()), id, accepted, reason, m)
              case Err(e) => result == Err(e)
              case Ok(after) => result.Ok? && Tables() == after
    {
      if accepted.None? {
        Fail(id, if reason.Some? then reason.value else SyncFailed, m);
        return Ok(());
      }
      var local := None;
      if accepted.value.Fetched? {
        var imported := Import(accepted.value.feed, accepted.value.artifacts);
        if imported.Err? {
          return Err(imported.error);
        }
        local := Some(imported.value);
      }
      Succeed(id, accepted.value, local, m.now);
      return Ok(());
    }

    method Succeed(id: JobId, download: Download, local: Option<nat>, now: int)
      modifies this`subscription, this`completed, this`effects
      ensures Tables() == Succeeded(old(Tables()), id, download, local, now)
    {
      var remote := match download
        case Fetched(feed, _, _) => Cached(feed, feed.revision, feed.revisionId)
        case Unchanged(_, cached, _) => cached;
      subscription := subscription.(
        lastError := None, failures := 0, circuitOpenUntil := None, nextSyncAt := now + subscription.intervalMs,
        etag := download.etag, remote := Some(remote),
        latestLocal := if local.Some? then local else subscription.latestLocal);
      Complete(id);
    }

    method Fail(id: JobId, code: Code, m: Moment)
      requires id in events
      modifies this`subscription, this`completed, this`events, this`effects
      ensures Tables() == Failed(old(Tables()), id, code, m)
    {
      var terminal := Ends(events[id], code);
      Requeue(id, code, m);
      if terminal {
        Complete(id);
      }
    }

    method Requeue(id: JobId, code: Code, m: Moment)
      requires id in events
      modifies this`subscription, this`events
      ensures Tables() == Requeued(old(Tables()), id, code, m)
    {
      var event := events[id];
      var circuit := Circuit(subscription.failures + 1, m.now);
      var status := if Ends(event, code) then DeadLetter else Pending;
      events := events[id := Event(status, event.attempts, RetryAt(m.now, m.delayMs, circuit))];
      subscription := AfterFailure(subscription, code, m.now);
    }
  }
}
