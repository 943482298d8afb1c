/**
 Following a publication of another server (backend/src/federation): one subscription with its jobs,
 their outbox events and the local cache. Every operation is one transaction on these tables. Hashes
 are modelled as the values they identify, so a job's event id is its version and due time.
 */
module RemoteSync {
  import opened Base

  type Token = nat

  const CIRCUIT_FAILURES := 3
  const COOLDOWN_MS := 30_000
  const MAX_ATTEMPTS := 5
  const MAX_VERSION := 2_147_483_647

  /** A parsed feed. Artifacts are named by content, so bytes that match it are these. */
  datatype Feed = Feed(server: string, publication: string, revision: nat, revisionId: string, artifacts: seq<string>)

  /** A cached local revision; its rows are immutable but can be damaged. */
  datatype Local = Local(feed: Feed, artifacts: seq<string>, intact: bool)

  datatype Cached = Cached(feedHash: Feed, revision: nat, revisionId: string)

  datatype Subscription = Subscription(
    enabled: bool,
    version: nat,
    intervalMs: nat,
    nextSyncAt: int,
    circuitOpenUntil: Option<int>,
    failures: nat,
    lastError: Option<Code>,
    etag: Option<string>,
    remote: Option<Cached>,
    latestLocal: Option<nat>)

  datatype JobId = JobId(version: nat, due: int)

  datatype Status = Pending | Processing(token: Token) | Delivered | DeadLetter

  datatype Event = Event(status: Status, attempts: nat, availableAt: int)

  datatype Shown = Ours(local: nat) | Elsewhere

  datatype Device = Device(desired: Shown, active: bool, playing: bool)

  datatype World = World(
    server: string,
    publication: string,
    trusted: bool,
    subscription: Subscription,
    completed: map<JobId, bool>,
    events: map<JobId, Event>,
    effects: set<JobId>,
    cache: seq<Local>,
    devices: map<nat, Device>)

  datatype Code =
    | UrlInvalid | PolicyInvalid | OriginDenied | AddressDenied | DnsFailed | RequestFailed | RedirectDenied
    | ResponseInvalid | ResponseTooLarge | TimedOut | Aborted | Unauthorized | ProtocolMismatch | IdentityMismatch
    | PublicationMismatch | HashMismatch | SecretUnavailable | SyncFailed | RevisionConflict | CacheInvalid
    | StaleClaim

  predicate TerminalCode(code: Code) {
    code in {UrlInvalid, PolicyInvalid, OriginDenied, AddressDenied, Unauthorized, ProtocolMismatch,
             IdentityMismatch, PublicationMismatch, SecretUnavailable}
  }

  // ---- scheduleRemote ----

  predicate Live(event: Event) {
    event.status.Pending? || event.status.Processing?
  }

  /** A job that still has to deliver its result. */
  predicate Active(w: World, id: JobId) {
    id in w.completed && !w.completed[id] && id in w.events && Live(w.events[id])
  }

  predicate HasActive(w: World, version: nat) {
    exists id :: id in w.completed && id.version == version && Active(w, id)
  }

  function DueTime(s: Subscription, now: int, force: bool): int {
    Max(if force then now else s.nextSyncAt, if s.circuitOpenUntil.Some? then s.circuitOpenUntil.value else 0)
  }

  function AddJob(w: World, id: JobId): World {
    w.(events := if id in w.events then w.events else w.events[id := Event(Pending, 0, id.due)],
       completed := if id in w.completed then w.completed else w.completed[id := false],
       subscription := w.subscription.(nextSyncAt := id.due + w.subscription.intervalMs))
  }

  function ScheduleRemote(w: World, now: int, force: bool): World {
    var s := w.subscription;
    if !s.enabled || (!force && s.nextSyncAt > now) then w
    else if HasActive(w, s.version) then w
    else
      var id := JobId(s.version, DueTime(s, now, force));
      if id in w.effects then w else AddJob(w, id)
  }

  // ---- The administrator ----

  function Superseded(events: map<JobId, Event>): map<JobId, Event> {
    map id | id in events :: if events[id].status.Pending? then events[id].(status := Delivered) else events[id]
  }

  /** A new version; whatever the old one had pending ends. */
  function Renewed(w: World, enabled: Option<bool>, now: int): World {
    var s := w.subscription.(
      enabled := if enabled.Some? then enabled.value else w.subscription.enabled,
      version := w.subscription.version + 1, nextSyncAt := now, circuitOpenUntil := None, failures := 0);
    w.(subscription := s, events := Superseded(w.events))
  }

  /** update: renew, and schedule the first job of the new version. */
  function Update(w: World, enabled: Option<bool>, now: int): World {
    if w.subscription.version >= MAX_VERSION then w else ScheduleRemote(Renewed(w, enabled, now), now, false)
  }

  // ---- The importer ----

  /** A revision may only move on; the same number must be the very same feed. */
  predicate Conflicts(s: Subscription, feed: Feed) {
    s.remote.Some?
    && (feed.revision < s.remote.value.revision
        || (feed.revision == s.remote.value.revision
            && (s.remote.value.feedHash != feed || s.remote.value.revisionId != feed.revisionId)))
  }

  predicate Reusable(w: World, feed: Feed, artifacts: seq<string>) {
    var s := w.subscription;
    && s.latestLocal.Some? && s.remote.Some? && s.remote.value.feedHash == feed
    && s.latestLocal.value < |w.cache| && w.cache[s.latestLocal.value] == Local(feed, artifacts, true)
  }

  /** Devices that show this publication follow it, unless something is playing on them. */
  predicate Follows(device: Device) {
    device.desired.Ours? && device.active && !device.playing
  }

  function Imported(w: World, feed: Feed, artifacts: seq<string>): Result<(World, nat), Code> {
    if artifacts != feed.artifacts then Err(HashMismatch)
    else if !w.trusted || feed.server != w.server then Err(IdentityMismatch)
    else if feed.publication != w.publication then Err(PublicationMismatch)
    else if Conflicts(w.subscription, feed) then Err(RevisionConflict)
    else if Reusable(w, feed, artifacts) then Ok((w, w.subscription.latestLocal.value))
    else
      var local := |w.cache|;
      Ok((w.(cache := w.cache + [Local(feed, artifacts, true)],
             devices := map d | d in w.devices ::
               if Follows(w.devices[d]) then w.devices[d].(desired := Ours(local)) else w.devices[d]),
          local))
  }

  // ---- The worker's result ----

  /** What a download brought: a feed with its artifacts, or confirmation of what was cached. */
  datatype Download =
    | Fetched(feed: Feed, artifacts: seq<string>, etag: Option<string>)
    | Unchanged(local: nat, remote: Cached, etag: Option<string>)

  /** Everything about the moment of a persist that the tables do not say. */
  datatype Moment = Moment(now: int, delayMs: nat, aborted: bool, abortedLater: bool, leased: bool, stillLeased: bool)

  predicate Fenced(w: World, id: JobId, token: Token) {
    id in w.events && w.events[id].status == Processing(token)
  }

  /** The download as far as the current row still allows it. */
  function Accepted(w: World, download: Option<Download>, code: Option<Code>, aborted: bool): (Option<Download>, Option<Code>) {
    if download.None? then (None, code)
    else if aborted then (None, Some(Aborted))
    else if !w.trusted then (None, Some(OriginDenied))
    else if download.value.Unchanged? && (w.subscription.latestLocal != Some(download.value.local)
                                          || w.subscription.remote != Some(download.value.remote)) then
      (None, Some(CacheInvalid))
    else (download, code)
  }

  function Completed(w: World, id: JobId): World {
    w.(completed := w.completed[id := true], effects := w.effects + {id})
  }

  function RetryAt(now: int, delayMs: nat, circuit: Option<int>): int {
    Max(now + delayMs, if circuit.Some? then circuit.value else 0)
  }

  function Succeeded(w: World, id: JobId, download: Download, local: Option<nat>, now: int): World {
    var s := w.subscription;
    var remote := match download
      case Fetched(feed, _, _) => Cached(feed, feed.revision, feed.revisionId)
      case Unchanged(_, cached, _) => cached;
    Completed(w.(subscription := s.(lastError := None, failures := 0, circuitOpenUntil := None,
                                    nextSyncAt := now + s.intervalMs, etag := download.etag, remote := Some(remote),
                                    latestLocal := if local.Some? then local else s.latestLocal)), id)
  }

  predicate Ends(event: Event, code: Code) {
    TerminalCode(code) || event.attempts >= MAX_ATTEMPTS
  }

  function Circuit(failures: nat, now: int): Option<int> {
    if failures >= CIRCUIT_FAILURES then Some(now + COOLDOWN_MS) else None
  }

  function AfterFailure(s: Subscription, code: Code, now: int): Subscription {
    var circuit := Circuit(s.failures + 1, now);
    s.(lastError := Some(code), failures := s.failures + 1, circuitOpenUntil := circuit,
       nextSyncAt := RetryAt(now, s.intervalMs, circuit))
  }

  function Requeued(w: World, id: JobId, code: Code, m: Moment): World
    requires id in w.events
  {
    var event := w.events[id];
    var status := if Ends(event, code) then DeadLetter else Pending;
    w.(subscription := AfterFailure(w.subscription, code, m.now),
       events := w.events[id := Event(status, event.attempts, RetryAt(m.now, m.delayMs, Circuit(w.subscription.failures + 1, m.now)))])
  }

  function Failed(w: World, id: JobId, code: Code, m: Moment): World
    requires id in w.events
  {
    var u := Requeued(w, id, code, m);
    if Ends(w.events[id], code) then Completed(u, id) else u
  }

  /** persist: one fenced transaction. An error undoes all of it. */
  function Persist(w: World, id: JobId, token: Token, download: Option<Download>, code: Option<Code>, m: Moment, cancelled: bool)
    : Result<World, Code>
  {
    if !Fenced(w, id, token) || !m.leased || id !in w.completed then Err(StaleClaim)
    else if w.completed[id] then Ok(w)
    else if cancelled || !w.subscription.enabled || w.subscription.version != id.version then Ok(Completed(w, id))
    else
      var (accepted, reason) := Accepted(w, download, code, m.aborted);
      var after := Outcome(w, id, accepted, reason, m);
      if after.Err? then after
      else if accepted.Some? && m.abortedLater then Err(Aborted)
      else if !m.stillLeased then Err(StaleClaim)
      else after
  }

  function Outcome(w: World, id: JobId, accepted: Option<Download>, reason: Option<Code>, m: Moment): Result<World, Code>
    requires id in w.events
  {
    if accepted.None? then Ok(Failed(w, id, if reason.Some? then reason.value else SyncFailed, m))
    else if accepted.value.Unchanged? then Ok(Succeeded(w, id, accepted.value, None, m.now))
    else
      match Imported(w, accepted.value.feed, accepted.value.artifacts)
      case Err(e) => Err(e)
      case Ok((u, local)) => Ok(Succeeded(u, id, accepted.value, Some(local), m.now))
  }
}
