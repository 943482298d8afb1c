/**
 Remote sync over every history: schedulers, an administrator and any number of workers whose claims
 expire and are taken over at any point. A persisted result is arbitrary: no lemma relies on what a
 worker saw when it started its download.
 */
module RemoteRuns {
  import opened Base
  import opened RemoteSync

  datatype Step =
    | Schedule(now: int)
    | ForceSync(now: int)
    | Administer(enabled: Option<bool>, now: int)
    | ClaimJob(id: JobId, token: Token)
    | PersistResult(id: JobId, token: Token, download: Option<Download>, code: Option<Code>, m: Moment, cancelled: bool)
    // The dispatcher acknowledges after persist reported the job complete.
    | Acknowledge(id: JobId, token: Token)
    | Reject(id: JobId, token: Token, dead: bool, availableAt: int)
    | Exhaust(id: JobId)
    | SetTrust(trusted: bool)
    | Damage(local: nat)
    | SetDevice(device: nat, state: Device)

  function SetStatus(w: World, id: JobId, event: Event): World {
    w.(events := w.events[id := event])
  }

  function Next(w: World, step: Step): World {
    match step
    case Schedule(now) => ScheduleRemote(w, now, false)
    case ForceSync(now) => ScheduleRemote(w, now, true)
    case Administer(enabled, now) => Update(w, enabled, now)
    case ClaimJob(id, token) =>
      if id in w.events && Live(w.events[id]) && w.events[id].attempts < MAX_ATTEMPTS
      then SetStatus(w, id, Event(Processing(token), w.events[id].attempts + 1, w.events[id].availableAt)) else w
    case PersistResult(id, token, download, code, m, cancelled) =>
      var r := Persist(w, id, token, download, code, m, cancelled);
      if r.Ok? then r.value else w
    case Acknowledge(id, token) =>
      if Fenced(w, id, token) && id in w.completed && w.completed[id]
      then SetStatus(w, id, w.events[id].(status := Delivered)) else w
    case Reject(id, token, dead, availableAt) =>
      if Fenced(w, id, token)
      then SetStatus(w, id, Event(if dead then DeadLetter else Pending, w.events[id].attempts, availableAt)) else w
    case Exhaust(id) =>
      if id in w.events && w.events[id].status.Processing?
      then SetStatus(w, id, w.events[id].(status := DeadLetter)) else w
    case SetTrust(trusted) => w.(trusted := trusted)
    case Damage(local) => if local < |w.cache| then w.(cache := w.cache[local := w.cache[local].(intact := false)]) else w
    case SetDevice(device, state) =>
      if state.desired.Ours? && state.desired.local >= |w.cache| then w else w.(devices := w.devices[device := state])
  }

  function Run(w: World, steps: seq<Step>): World {
    if steps == [] then w else Next(Run(w, steps[..|steps| - 1]), steps[|steps| - 1])
  }

  // ---- The cache ----

  /** The recorded revision is that of the recorded feed, and the latest local revision holds it. */
  predicate CacheOk(w: World) {
    var s := w.subscription;
    && (s.remote.Some? ==> s.remote.value == Cached(s.remote.value.feedHash, s.remote.value.feedHash.revision, s.remote.value.feedHash.revisionId))
    && (s.remote.Some? <==> s.latestLocal.Some?)
    && (s.remote.Some? ==> s.latestLocal.value < |w.cache| && w.cache[s.latestLocal.value].feed == s.remote.value.feedHash)
  }

  /** A revision number moves up or stays with exactly the same content. */
  predicate MovesForward(before: Option<Cached>, after: Option<Cached>) {
    before.Some? ==> after.Some? && (before.value.revision < after.value.revision || before == after)
  }

  lemma ImportKeepsCache(w: World, feed: Feed, artifacts: seq<string>)
    requires CacheOk(w) && Imported(w, feed, artifacts).Ok?
    ensures var (u, local) := Imported(w, feed, artifacts).value;
            && u.subscription == w.subscription && u.completed == w.completed && u.events == w.events && u.effects == w.effects
            && local < |u.cache| && u.cache[local].feed == feed && !Conflicts(w.subscription, feed)
  {
  }

  lemma SuccessKeepsCache(w: World, u: World, id: JobId, download: Download, local: Option<nat>, now: int)
    requires CacheOk(w) && u.subscription == w.subscription
    requires download.Unchanged? ==> u == w && local.None? && w.subscription.remote == Some(download.remote)
    requires download.Fetched? ==> local.Some? && local.value < |u.cache| && u.cache[local.value].feed == download.feed
                                   && !Conflicts(w.subscription, download.feed)
    ensures var v := Succeeded(u, id, download, local, now);
            CacheOk(v) && MovesForward(w.subscription.remote, v.subscription.remote)
  {
  }

  lemma OutcomeKeepsCache(w: World, id: JobId, accepted: Option<Download>, reason: Option<Code>, m: Moment)
    requires CacheOk(w) && id in w.events && Outcome(w, id, accepted, reason, m).Ok?
    requires accepted.Some? && accepted.value.Unchanged? ==> w.subscription.remote == Some(accepted.value.remote)
    ensures var u := Outcome(w, id, accepted, reason, m).value;
            CacheOk(u) && MovesForward(w.subscription.remote, u.subscription.remote)
  {
    if accepted.None? {
      FailureLeavesCache(w, id, if reason.Some? then reason.value else SyncFailed, m);
      SameCacheOk(w, Outcome(w, id, accepted, reason, m).value);
    } else if accepted.value.Unchanged? {
      SuccessKeepsCache(w, w, id, accepted.value, None, m.now);
    } else {
      ImportOutcomeKeepsCache(w, id, accepted.value, m.now);
    }
  }

  lemma FailureLeavesCache(w: World, id: JobId, reason: Code, m: Moment)
    requires id in w.events
    ensures SameCache(w, Failed(w, id, reason, m))
  {
  }

  predicate SameCache(w: World, u: World) {
    u.cache == w.cache && u.subscription.remote == w.subscription.remote && u.subscription.latestLocal == w.subscription.latestLocal
  }

  lemma SameCacheOk(w: World, u: World)
    requires CacheOk(w) && SameCache(w, u)
    ensures CacheOk(u)
  {
  }

  lemma ImportOutcomeKeepsCache(w: World, id: JobId, download: Download, now: int)
    requires CacheOk(w) && id in w.events && download.Fetched? && Imported(w, download.feed, download.artifacts).Ok?
    ensures var (u, local) := Imported(w, download.feed, download.artifacts).value;
            var t := Succeeded(u, id, download, Some(local), now);
            CacheOk(t) && MovesForward(w.subscription.remote, t.subscription.remote)
  {
    ImportKeepsCache(w, download.feed, download.artifacts);
    var (u, local) := Imported(w, download.feed, download.artifacts).value;
    SuccessKeepsCache(w, u, id, download, Some(local), now);
  }

  /** A persist is one of three things: nothing, the end of an obsolete job, or the outcome of a result. */
  lemma PersistCases(w: World, id: JobId, token: Token, download: Option<Download>, code: Option<Code>, m: Moment, cancelled: bool)
    requires Persist(w, id, token, download, code, m, cancelled).Ok?
    ensures Fenced(w, id, token) && id in w.completed
    ensures var u := Persist(w, id, token, download, code, m, cancelled).value;
            var (accepted, reason) := Accepted(w, download, code, m.aborted);
            || u == w || (u == Completed(w, id) && !w.completed[id])
            || (Ok(u) == Outcome(w, id, accepted, reason, m) && !w.completed[id]
                && (accepted.Some? && accepted.value.Unchanged? ==> w.subscription.remote == Some(accepted.value.remote)))
  {
  }

  lemma PersistEffect(w: World, id: JobId, token: Token, download: Option<Download>, code: Option<Code>, m: Moment, cancelled: bool)
    requires CacheOk(w) && Persist(w, id, token, download, code, m, cancelled).Ok?
    ensures var u := Persist(w, id, token, download, code, m, cancelled).value;
            CacheOk(u) && MovesForward(w.subscription.remote, u.subscription.remote)
  {
    PersistCases(w, id, token, download, code, m, cancelled);
    var (accepted, reason) := Accepted(w, download, code, m.aborted);
    if Persist(w, id, token, download, code, m, cancelled) == Outcome(w, id, accepted, reason, m)
       && (accepted.Some? && accepted.value.Unchanged? ==> w.subscription.remote == Some(accepted.value.remote)) {
      OutcomeKeepsCache(w, id, accepted, reason, m);
    }
  }

  lemma NextKeepsCache(w: World, step: Step)
    requires CacheOk(w)
    ensures CacheOk(Next(w, step)) && MovesForward(w.subscription.remote, Next(w, step).subscription.remote)
  {
    if step.PersistResult? && Persist(w, step.id, step.token, step.download, step.code, step.m, step.cancelled).Ok? {
      PersistEffect(w, step.id, step.token, step.download, step.code, step.m, step.cancelled);
    }
  }

  /** Whatever workers deliver, late, twice or out of order, the cached revision never goes back, and
      while its number stays so do its hash and its remote id. */
  lemma {:induction false} RevisionNeverDecreases(w: World, steps: seq<Step>)
    requires CacheOk(w)
    ensures CacheOk(Run(w, steps)) && MovesForward(w.subscription.remote, Run(w, steps).subscription.remote)
    decreases |steps|
  {
    if steps != [] {
      RevisionNeverDecreases(w, steps[..|steps| - 1]);
      NextKeepsCache(Run(w, steps[..|steps| - 1]), steps[|steps| - 1]);
    }
  }

  // ---- One persist ----

  /** A job of an outdated version or a disabled subscription only completes itself. */
  lemma ObsoleteJobsChangeNothing(w: World, id: JobId, token: Token, download: Option<Download>, code: Option<Code>, m: Moment, cancelled: bool)
    requires !w.subscription.enabled || w.subscription.version != id.version
    requires Persist(w, id, token, download, code, m, cancelled).Ok?
    ensures var u := Persist(w, id, token, download, code, m, cancelled).value;
            && u == w.(completed := u.completed, effects := u.effects)
            && u.completed == w.completed[id := true]
  {
    assert w.completed[id] ==> w.completed == w.completed[id := true];
  }

  /** Without an accepted result everything cached stays, failures count up, the third one opens the
      circuit, and only a terminal failure ends the job. */
  lemma FailureKeepsCache(w: World, id: JobId, token: Token, download: Option<Download>, code: Option<Code>, m: Moment)
    requires Persist(w, id, token, download, code, m, false).Ok? && !w.completed[id]
    requires w.subscription.enabled && w.subscription.version == id.version
    requires Accepted(w, download, code, m.aborted).0.None?
    ensures var u := Persist(w, id, token, download, code, m, false).value;
            var s, t := w.subscription, u.subscription;
            && t.remote == s.remote && t.latestLocal == s.latestLocal && t.etag == s.etag
            && u.cache == w.cache && u.devices == w.devices
            && t.failures == s.failures + 1
            && (t.circuitOpenUntil.Some? <==> t.failures >= 3)
            && (t.circuitOpenUntil.Some? ==> t.circuitOpenUntil == Some(m.now + 30_000)
                                             && t.nextSyncAt >= m.now + 30_000 && u.events[id].availableAt >= m.now + 30_000)
            && (u.completed[id] <==> u.events[id].status == DeadLetter)
            && (!u.completed[id] ==> u.events[id].status == Pending && w.events[id].attempts < 5)
  {
  }

  /** A new feed is appended once; the devices that show this publication move to it together. */
  lemma SuccessMovesFollowers(w: World, id: JobId, token: Token, feed: Feed, etag: Option<string>, m: Moment, device: nat)
    requires var download := Some(Fetched(feed, feed.artifacts, etag));
             Persist(w, id, token, download, None, m, false).Ok? && !w.completed[id] && !m.aborted && w.trusted
    requires w.subscription.enabled && w.subscription.version == id.version && device in w.devices
    ensures var u := Persist(w, id, token, Some(Fetched(feed, feed.artifacts, etag)), None, m, false).value;
            && u.completed[id] && id in u.effects
            && u.subscription.remote == Some(Cached(feed, feed.revision, feed.revisionId))
            && (Reusable(w, feed, feed.artifacts) ==> u.cache == w.cache && u.devices == w.devices)
            && (!Reusable(w, feed, feed.artifacts) ==>
                  && u.cache == w.cache + [Local(feed, feed.artifacts, true)]
                  && u.subscription.latestLocal == Some(|w.cache|)
                  && device in u.devices
                  && u.devices[device] == if Follows(w.devices[device]) then w.devices[device].(desired := Ours(|w.cache|)) else w.devices[device])
  {
    assert Accepted(w, Some(Fetched(feed, feed.artifacts, etag)), None, m.aborted).0 == Some(Fetched(feed, feed.artifacts, etag));
  }

  // ---- Jobs ----

  /** Jobs and their events are created together; no version has two jobs at work. */
  ghost predicate JobsOk(w: World) {
    && w.completed.Keys == w.events.Keys && w.effects <= w.completed.Keys
    && (forall id :: id in w.completed ==> 1 <= id.version <= w.subscription.version)
    && (forall a, b :: Active(w, a) && Active(w, b) && a.version == b.version ==> a == b)
  }

  /** Nothing that was not active becomes active. */
  lemma FewerActive(w: World, u: World)
    requires JobsOk(w)
    requires u.completed.Keys == w.completed.Keys && u.events.Keys == w.events.Keys && u.effects <= w.completed.Keys
    requires u.subscription.version >= w.subscription.version
    requires forall id :: Active(u, id) ==> Active(w, id)
    ensures JobsOk(u)
  {
  }

  lemma ScheduleKeepsJobs(w: World, now: int, force: bool)
    requires JobsOk(w) && w.subscription.version >= 1
    ensures JobsOk(ScheduleRemote(w, now, force))
  {
    var s := w.subscription;
    var u := ScheduleRemote(w, now, force);
    if u != w {
      var id := JobId(s.version, DueTime(s, now, force));
      forall a, b | Active(u, a) && Active(u, b) && a.version == b.version ensures a == b {
        assert a != id ==> Active(w, a);
        assert b != id ==> Active(w, b);
      }
    }
  }

  lemma UpdateKeepsJobs(w: World, enabled: Option<bool>, now: int)
    requires JobsOk(w) && w.subscription.version >= 1
    ensures JobsOk(Update(w, enabled, now)) && Update(w, enabled, now).subscription.version >= w.subscription.version
  {
    if w.subscription.version < MAX_VERSION {
      RenewedKeepsJobs(w, enabled, now);
      ScheduleKeepsJobs(Renewed(w, enabled, now), now, false);
    }
  }

  lemma RenewedKeepsJobs(w: World, enabled: Option<bool>, now: int)
    requires JobsOk(w) && w.subscription.version >= 1
    ensures JobsOk(Renewed(w, enabled, now))
  {
    FewerActive(w, Renewed(w, enabled, now));
  }

  /** Only one job and its event were touched, and it did not become active. */
  ghost predicate OnlyTouched(w: World, u: World, id: JobId) {
    && u.subscription.version == w.subscription.version
    && u.completed.Keys == w.completed.Keys && u.events.Keys == w.events.Keys && u.effects <= w.effects + {id} && id in w.completed
    && (forall other :: other in w.events && other != id ==> u.events[other] == w.events[other])
    && (forall other :: other in w.completed && other != id ==> u.completed[other] == w.completed[other])
    && (Active(u, id) ==> Active(w, id))
  }

  lemma OneTouchedKeeps(w: World, u: World, id: JobId)
    requires JobsOk(w) && OnlyTouched(w, u, id)
    ensures JobsOk(u)
  {
    forall other | Active(u, other) ensures Active(w, other) {
      if other != id {
        assert w.events[other] == u.events[other] && w.completed[other] == u.completed[other];
      }
    }
    FewerActive(w, u);
  }

  lemma OutcomeTouches(w: World, id: JobId, accepted: Option<Download>, reason: Option<Code>, m: Moment)
    requires id in w.completed && id in w.events && Live(w.events[id]) && !w.completed[id]
    requires Outcome(w, id, accepted, reason, m).Ok?
    ensures OnlyTouched(w, Outcome(w, id, accepted, reason, m).value, id)
  {
    var u := Outcome(w, id, accepted, reason, m).value;
    assert Active(w, id);
    if accepted.None? {
      assert u.events.Keys == w.events.Keys;
    } else {
      assert u.events == w.events && u.completed == w.completed[id := true];
    }
    assert u.completed.Keys == w.completed.Keys;
  }

  lemma PersistKeepsJobs(w: World, step: Step)
    requires JobsOk(w) && step.PersistResult?
    ensures JobsOk(Next(w, step)) && Next(w, step).subscription.version == w.subscription.version
  {
    var r := Persist(w, step.id, step.token, step.download, step.code, step.m, step.cancelled);
    if r.Ok? && r.value != w {
      PersistCases(w, step.id, step.token, step.download, step.code, step.m, step.cancelled);
      var (accepted, reason) := Accepted(w, step.download, step.code, step.m.aborted);
      if r.value == Completed(w, step.id) {
        assert r.value.completed.Keys == w.completed.Keys;
        assert OnlyTouched(w, r.value, step.id);
      } else {
        OutcomeTouches(w, step.id, accepted, reason, step.m);
      }
      OneTouchedKeeps(w, r.value, step.id);
    }
  }

  lemma EventStepTouches(w: World, step: Step)
    requires w.completed.Keys == w.events.Keys && (step.ClaimJob? || step.Acknowledge? || step.Reject? || step.Exhaust?)
    ensures Next(w, step) == w || OnlyTouched(w, Next(w, step), step.id)
  {
    var u := Next(w, step);
    if u != w {
      assert step.id in w.events && u.events == w.events[step.id := u.events[step.id]];
      assert u.events.Keys == w.events.Keys;
      assert Live(w.events[step.id]);
    }
  }

  lemma EventStepKeepsJobs(w: World, step: Step)
    requires JobsOk(w) && (step.ClaimJob? || step.Acknowledge? || step.Reject? || step.Exhaust?)
    ensures JobsOk(Next(w, step)) && Next(w, step).subscription == w.subscription
  {
    EventStepTouches(w, step);
    var u := Next(w, step);
    if u != w {
      OneTouchedKeeps(w, u, step.id);
    }
  }

  lemma NextKeepsJobs(w: World, step: Step)
    requires JobsOk(w) && w.subscription.version >= 1
    ensures JobsOk(Next(w, step)) && Next(w, step).subscription.version >= 1
  {
    if step.Schedule? || step.ForceSync? {
      ScheduleKeepsJobs(w, step.now, step.ForceSync?);
    } else if step.Administer? {
      UpdateKeepsJobs(w, step.enabled, step.now);
    } else if step.PersistResult? {
      PersistKeepsJobs(w, step);
    } else if step.ClaimJob? || step.Acknowledge? || step.Reject? || step.Exhaust? {
      EventStepKeepsJobs(w, step);
    } else {
      SameJobs(w, Next(w, step));
    }
  }

  lemma SameJobs(w: World, u: World)
    requires JobsOk(w) && u.completed == w.completed && u.events == w.events && u.effects == w.effects && u.subscription == w.subscription
    ensures JobsOk(u)
  {
    forall id | Active(u, id) ensures Active(w, id) {
    }
    FewerActive(w, u);
  }

  lemma {:induction false} RunKeepsJobs(w: World, steps: seq<Step>)
    requires JobsOk(w) && w.subscription.version >= 1
    ensures JobsOk(Run(w, steps)) && Run(w, steps).subscription.version >= 1
    decreases |steps|
  {
    if steps != [] {
      RunKeepsJobs(w, steps[..|steps| - 1]);
      NextKeepsJobs(Run(w, steps[..|steps| - 1]), steps[|steps| - 1]);
    }
  }

  // ---- When one version has two live events ----

  ghost predicate TwoLive(w: World, version: nat) {
    exists a: JobId, b: JobId :: CountsTwo(w, a, b) && a.version == version
  }

  predicate CountsTwo(w: World, a: JobId, b: JobId) {
    a != b && a.version == b.version && a in w.events && b in w.events && Live(w.events[a]) && Live(w.events[b])
  }

  /** A job has its result recorded and its event waits for the acknowledgement. */
  predicate Unacknowledged(w: World, id: JobId) {
    id in w.completed && w.completed[id] && id in w.events && Live(w.events[id])
  }

  predicate HasUnacknowledged(w: World, version: nat) {
    exists id :: id in w.completed && id.version == version && Unacknowledged(w, id)
  }

  /** The schedule creates an event: it is allowed and due, no job is at work, the id is new. */
  predicate Creates(w: World, now: int, force: bool) {
    var s := w.subscription;
    var id := JobId(s.version, DueTime(s, now, force));
    s.enabled && (force || s.nextSyncAt <= now) && !HasActive(w, s.version) && id !in w.effects && id !in w.events
  }

  /** A second live event of a version appears exactly when a schedule creates one while an earlier job
      of that version waits for its acknowledgement. */
  lemma ScheduleDoubles(w: World, now: int, force: bool, version: nat)
    requires JobsOk(w) && !TwoLive(w, version)
    ensures TwoLive(ScheduleRemote(w, now, force), version)
       <==> version == w.subscription.version && Creates(w, now, force) && HasUnacknowledged(w, version)
  {
    var s, u := w.subscription, ScheduleRemote(w, now, force);
    var id := JobId(s.version, DueTime(s, now, force));
    if version == s.version && Creates(w, now, force) && HasUnacknowledged(w, version) {
      var other :| other in w.completed && other.version == version && Unacknowledged(w, other);
      assert CountsTwo(u, other, id);
    }
    if TwoLive(u, version) {
      var a: JobId, b: JobId :| CountsTwo(u, a, b) && a.version == version;
      NewEventOnly(w, now, force, a, b);
      var other := if a == id then b else a;
      assert !Active(w, other) ==> Unacknowledged(w, other);
    }
  }

  /** Two live events that were not there before include the one just created. */
  lemma NewEventOnly(w: World, now: int, force: bool, a: JobId, b: JobId)
    requires JobsOk(w) && !CountsTwo(w, a, b) && CountsTwo(ScheduleRemote(w, now, force), a, b)
    ensures var id := JobId(w.subscription.version, DueTime(w.subscription, now, force));
            Creates(w, now, force) && (a == id || b == id) && a.version == w.subscription.version
  {
  }

  /** The live events of one version, of which there is at most one, do not multiply. */
  lemma LiveShrinks(w: World, u: World, version: nat)
    requires !TwoLive(w, version)
    requires forall id :: id in u.events && id.version == version && Live(u.events[id]) ==> id in w.events && Live(w.events[id])
    ensures !TwoLive(u, version)
  {
    if TwoLive(u, version) {
      var a: JobId, b: JobId :| CountsTwo(u, a, b) && a.version == version;
      assert CountsTwo(w, a, b);
    }
  }

  /** Only a schedule can do this, and this is when it does. */
  predicate Doubles(w: World, step: Step, version: nat) {
    && (step.Schedule? || step.ForceSync?) && version == w.subscription.version
    && Creates(w, step.now, step.ForceSync?) && HasUnacknowledged(w, version)
  }

  lemma UpdateDoublesNothing(w: World, enabled: Option<bool>, now: int, version: nat)
    requires JobsOk(w) && w.subscription.version >= 1 && !TwoLive(w, version)
    ensures !TwoLive(Update(w, enabled, now), version)
  {
    if w.subscription.version < MAX_VERSION {
      var u := Renewed(w, enabled, now);
      RenewedKeepsJobs(w, enabled, now);
      LiveShrinks(w, u, version);
      NothingOfNewVersion(w, enabled, now);
      ScheduleDoubles(u, now, false, version);
    }
  }

  /** A version that was just given has no jobs. */
  lemma NothingOfNewVersion(w: World, enabled: Option<bool>, now: int)
    requires JobsOk(w)
    ensures !HasUnacknowledged(Renewed(w, enabled, now), w.subscription.version + 1)
  {
  }

  lemma OutcomeLive(w: World, id: JobId, accepted: Option<Download>, reason: Option<Code>, m: Moment, other: JobId)
    requires id in w.events && Live(w.events[id]) && Outcome(w, id, accepted, reason, m).Ok?
    ensures var u := Outcome(w, id, accepted, reason, m).value;
            other in u.events && Live(u.events[other]) ==> other in w.events && Live(w.events[other])
  {
  }

  lemma PersistLive(w: World, step: Step, other: JobId)
    requires step.PersistResult?
    ensures other in Next(w, step).events && Live(Next(w, step).events[other]) ==> other in w.events && Live(w.events[other])
  {
    var r := Persist(w, step.id, step.token, step.download, step.code, step.m, step.cancelled);
    if r.Ok? {
      PersistCases(w, step.id, step.token, step.download, step.code, step.m, step.cancelled);
      var (accepted, reason) := Accepted(w, step.download, step.code, step.m.aborted);
      if r == Outcome(w, step.id, accepted, reason, step.m) {
        OutcomeLive(w, step.id, accepted, reason, step.m, other);
      }
    }
  }

  lemma PersistDoublesNothing(w: World, step: Step, version: nat)
    requires step.PersistResult? && !TwoLive(w, version)
    ensures !TwoLive(Next(w, step), version)
  {
    forall id | id in Next(w, step).events && Live(Next(w, step).events[id]) ensures id in w.events && Live(w.events[id]) {
      PersistLive(w, step, id);
    }
    LiveShrinks(w, Next(w, step), version);
  }

  /** The queue moves events on, but gives none a second life. */
  lemma QueueDoublesNothing(w: World, step: Step, version: nat)
    requires !step.Schedule? && !step.ForceSync? && !step.Administer? && !step.PersistResult? && !TwoLive(w, version)
    ensures !TwoLive(Next(w, step), version)
  {
    LiveShrinks(w, Next(w, step), version);
  }

  lemma StepDoubles(w: World, step: Step, version: nat)
    requires JobsOk(w) && w.subscription.version >= 1 && !TwoLive(w, version)
    ensures TwoLive(Next(w, step), version) <==> Doubles(w, step, version)
  {
    if step.Schedule? || step.ForceSync? {
      ScheduleDoubles(w, step.now, step.ForceSync?, version);
    } else if step.Administer? {
      UpdateDoublesNothing(w, step.enabled, step.now, version);
    } else if step.PersistResult? {
      PersistDoublesNothing(w, step, version);
    } else {
      QueueDoublesNothing(w, step, version);
    }
  }

  /** The version had at most one live event in each of the first states, */
  ghost predicate OneLive(start: World, steps: seq<Step>, upTo: nat, version: nat)
    requires upTo <= |steps|
  {
    forall k :: 0 <= k <= upTo ==> !TwoLive(Run(start, steps[..k]), version)
  }

  /** and none of the first steps gave it a second one. */
  ghost predicate NoneDoubles(start: World, steps: seq<Step>, upTo: nat, version: nat)
    requires upTo <= |steps|
  {
    forall k :: 0 <= k < upTo ==> !Doubles(Run(start, steps[..k]), steps[k], version)
  }

  lemma OneLiveOneMore(start: World, steps: seq<Step>, k: nat, version: nat)
    requires k < |steps|
    ensures OneLive(start, steps, k + 1, version) <==> OneLive(start, steps, k, version) && !TwoLive(Run(start, steps[..k + 1]), version)
  {
  }

  lemma NoneDoublesOneMore(start: World, steps: seq<Step>, k: nat, version: nat)
    requires k < |steps|
    ensures NoneDoubles(start, steps, k + 1, version)
       <==> NoneDoubles(start, steps, k, version) && !Doubles(Run(start, steps[..k]), steps[k], version)
  {
  }

  lemma StepAt(start: World, steps: seq<Step>, k: nat, version: nat)
    requires JobsOk(start) && start.subscription.version >= 1 && k < |steps| && !TwoLive(Run(start, steps[..k]), version)
    ensures TwoLive(Run(start, steps[..k + 1]), version) <==> Doubles(Run(start, steps[..k]), steps[k], version)
  {
    assert steps[..k + 1][..k] == steps[..k];
    RunKeepsJobs(start, steps[..k]);
    StepDoubles(Run(start, steps[..k]), steps[k], version);
  }

  lemma CreatedOk(server: string, publication: string, intervalMs: nat, now: int)
    ensures var start := Created(server, publication, intervalMs, now);
            JobsOk(start) && start.subscription.version == 1 && start.events == map[]
  {
  }

  /** The bound of one live event per version holds up to any point of a run exactly when no schedule
      before it creates a job of that version while a completed one waits for its acknowledgement. */
  lemma {:induction false} OneLiveExactly(server: string, publication: string, intervalMs: nat, now: int,
                                          steps: seq<Step>, upTo: nat, version: nat)
    requires upTo <= |steps|
    ensures var start := Created(server, publication, intervalMs, now);
            OneLive(start, steps, upTo, version) <==> NoneDoubles(start, steps, upTo, version)
    decreases upTo
  {
    var start := Created(server, publication, intervalMs, now);
    CreatedOk(server, publication, intervalMs, now);
    if upTo == 0 {
      assert Run(start, steps[..0]) == start;
    } else {
      var k := upTo - 1;
      OneLiveExactly(server, publication, intervalMs, now, steps, k, version);
      OneLiveOneMore(start, steps, k, version);
      NoneDoublesOneMore(start, steps, k, version);
      if OneLive(start, steps, k, version) {
        StepAt(start, steps, k, version);
      }
    }
  }

  /** What creating a subscription leaves before its first job is scheduled. */
  function Created(server: string, publication: string, intervalMs: nat, now: int): World {
    World(server, publication, true,
          Subscription(true, 1, intervalMs, now, None, 0, None, None, None, None),
          map[], map[], {}, [], map[])
  }

  /** Of two live events of one version, one belongs to a job whose result is already recorded and
      only waits for its acknowledgement. */
  lemma OneJobAtWork(server: string, publication: string, intervalMs: nat, now: int, steps: seq<Step>, a: JobId, b: JobId)
    requires var w := Run(Created(server, publication, intervalMs, now), steps);
             && a in w.events && b in w.events && a != b && a.version == b.version
             && Live(w.events[a]) && Live(w.events[b])
    ensures var w := Run(Created(server, publication, intervalMs, now), steps);
            a in w.completed && b in w.completed && (w.completed[a] || w.completed[b])
  {
    var start := Created(server, publication, intervalMs, now);
    RunKeepsJobs(start, steps);
    var w := Run(start, steps);
    if !w.completed[a] && !w.completed[b] {
      assert Active(w, a) && Active(w, b);
    }
  }

  lemma FirstResultRecorded(start: World, feed: Feed, now: int, m: Moment)
    requires start == Created(feed.server, feed.publication, 60_000, now) && now >= 0 && feed.artifacts == []
    requires m == Moment(now, 0, false, false, true, true)
    ensures var first := JobId(1, now);
            var w := Next(Next(Next(start, Schedule(now)), ClaimJob(first, 7)),
                          PersistResult(first, 7, Some(Fetched(feed, [], None)), None, m, false));
            && w.subscription.enabled && w.subscription.version == 1 && w.subscription.circuitOpenUntil.None?
            && w.subscription.nextSyncAt == now + 60_000 && w.effects == {first}
            && w.completed == map[first := true] && w.events == map[first := Event(Processing(7), 1, now)]
  {
    var first := JobId(1, now);
    var w1 := Next(start, Schedule(now));
    assert w1 == AddJob(start, first);
    var w2 := Next(w1, ClaimJob(first, 7));
    assert w2.events == map[first := Event(Processing(7), 1, now)] && w2.completed == map[first := false];
  }

  lemma SecondJobScheduled(w: World, now: int)
    requires now >= 0 && w.subscription.enabled && w.subscription.version == 1 && w.subscription.circuitOpenUntil.None?
    requires w.subscription.nextSyncAt == now + 60_000 && w.effects == {JobId(1, now)}
    requires w.completed == map[JobId(1, now) := true] && w.events == map[JobId(1, now) := Event(Processing(7), 1, now)]
    ensures CountsTwo(Next(w, Schedule(now + 60_000)), JobId(1, now), JobId(1, now + 60_000))
  {
    assert Next(w, Schedule(now + 60_000)) == AddJob(w, JobId(1, now + 60_000));
  }

  lemma RunOfFour(w: World, a: Step, b: Step, c: Step, d: Step)
    ensures Run(w, [a, b, c, d]) == Next(Next(Next(Next(w, a), b), c), d)
  {
    assert [a, b, c, d][..3] == [a, b, c] && [a, b, c][..2] == [a, b] && [a, b][..1] == [a] && [a][..0] == [];
    assert Run(w, [a]) == Next(Run(w, []), a);
    assert Run(w, [a, b]) == Next(Run(w, [a]), b);
    assert Run(w, [a, b, c]) == Next(Run(w, [a, b]), c);
  }

  /** Counting the job that waits for its acknowledgement, there can be two: the plain bound fails. */
  lemma TwoLiveEvents(feed: Feed, now: int)
    requires feed.artifacts == [] && now >= 0
    ensures exists steps :: CountsTwo(Run(Created(feed.server, feed.publication, 60_000, now), steps), JobId(1, now), JobId(1, now + 60_000))
  {
    var start := Created(feed.server, feed.publication, 60_000, now);
    var m := Moment(now, 0, false, false, true, true);
    var first, second := JobId(1, now), JobId(1, now + 60_000);
    var claim, persist := ClaimJob(first, 7), PersistResult(first, 7, Some(Fetched(feed, [], None)), None, m, false);
    RunOfFour(start, Schedule(now), claim, persist, Schedule(now + 60_000));
    assert CountsTwo(Run(start, [Schedule(now), claim, persist, Schedule(now + 60_000)]), first, second) by {
      FirstResultRecorded(start, feed, now, m);
      SecondJobScheduled(Next(Next(Next(start, Schedule(now)), claim), persist), now);
    }
  }

  // ---- Scheduling ----

  /** A new job is never due inside an open circuit, and the next period starts from it. */
  lemma ScheduleRespectsCircuit(w: World, now: int, force: bool, id: JobId)
    requires id !in w.events && id in ScheduleRemote(w, now, force).events
    ensures var s, u := w.subscription, ScheduleRemote(w, now, force);
            && s.enabled && (force || s.nextSyncAt <= now) && !HasActive(w, s.version) && id !in w.effects
            && id.version == s.version && u.events[id] == Event(Pending, 0, id.due)
            && (s.circuitOpenUntil.Some? ==> id.due >= s.circuitOpenUntil.value)
            && u.subscription.nextSyncAt == id.due + s.intervalMs
            && (id in w.completed || (id in u.completed && !u.completed[id]))
  {
  }

  /** An administrator's change starts a new version: nothing of an older one is pending any more, the
      circuit is closed, the cache stays, and an enabled subscription has its next job due at once. */
  lemma UpdateStartsOver(w: World, enabled: Option<bool>, now: int, id: JobId)
    requires JobsOk(w) && 1 <= w.subscription.version < MAX_VERSION && now >= 0
    ensures var u := Update(w, enabled, now);
            && u.subscription.version == w.subscription.version + 1 && (enabled.Some? ==> u.subscription.enabled == enabled.value)
            && u.subscription.circuitOpenUntil.None? && u.subscription.failures == 0
            && u.subscription.remote == w.subscription.remote && u.subscription.latestLocal == w.subscription.latestLocal
            && u.cache == w.cache && u.devices == w.devices
            && (id in u.events && u.events[id].status.Pending? ==> id == JobId(u.subscription.version, now) && u.subscription.enabled)
            && (u.subscription.enabled ==> Active(u, JobId(u.subscription.version, now)))
  {
  }
}
