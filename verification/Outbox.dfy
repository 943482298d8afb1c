/**
 The outbox table and its claim protocol (backend/src/events/outbox.store.ts): each store method
 is one atomic step on the rows, written here as a function of the rows before it.
 */
module Outbox {
  import opened Base
  import opened Queues

  /** Row keys, ordered as their text is. */
  type EventId = nat
  type DeviceId = nat
  type Token = nat
  type Owner = string

  datatype Status = Pending | Processing | Delivered | DeadLetter

  datatype ErrorCode = AttemptsExhausted | InvalidPayload | TransportFailed | Other(code: string)

  /** What never changes about an event: its type, its aggregate, the remote server of its sync job,
      and the effect and recipients its payload parses to. */
  datatype Info = Info(
    eventType: string,
    aggregateId: string,
    server: Option<string>,
    effectKey: string,
    recipients: set<DeviceId>)

  datatype Row = Row(
    info: Info,
    status: Status,
    attempts: nat,
    claimToken: Option<Token>,
    claimOwner: Option<Owner>,
    claimUntil: Option<int>,
    availableAt: int,
    occurredAt: int,
    lastAttemptAt: Option<int>,
    processedAt: Option<int>,
    lastError: Option<ErrorCode>)

  type Events = map<EventId, Row>

  /** An event as a worker holds it: the row that its claim returned. */
  datatype Claim = Claim(id: EventId, row: Row)

  type Filter = (EventId, Info) -> bool

  datatype Budget = Budget(group: Filter, limit: int)

  function NewRow(info: Info, availableAt: int, occurredAt: int): Row {
    Row(info, Pending, 0, None, None, None, availableAt, occurredAt, None, None, None)
  }

  // ---- The fence ----

  predicate Leased(row: Row, now: int) {
    row.status == Processing && row.claimUntil.Some? && row.claimUntil.value > now
  }

  /** The claim is still the row's current, unexpired one. */
  predicate Fenced(events: Events, event: Claim, now: int) {
    && event.id in events
    && events[event.id].claimToken == event.row.claimToken
    && events[event.id].claimOwner == event.row.claimOwner
    && Leased(events[event.id], now)
  }

  function Released(row: Row): Row {
    row.(claimToken := None, claimOwner := None, claimUntil := None)
  }

  // ---- ack and fail ----

  function Acknowledged(row: Row, now: int): Row {
    Released(row).(status := Delivered, processedAt := Some(now), lastError := None)
  }

  function Ack(events: Events, event: Claim, now: int): Events {
    if Fenced(events, event, now) then events[event.id := Acknowledged(events[event.id], now)] else events
  }

  predicate Fatal(event: Claim, code: ErrorCode) {
    event.row.attempts >= MAX_ATTEMPTS || code == InvalidPayload
  }

  function FailedRow(row: Row, event: Claim, code: ErrorCode, now: int, delay: real): Row {
    var dead := Fatal(event, code);
    Released(row).(
      status := if dead then DeadLetter else Pending,
      processedAt := if dead then Some(now) else None,
      availableAt := now + delay.Floor,
      lastError := Some(code))
  }

  function Fail(events: Events, event: Claim, code: ErrorCode, now: int, sample: real): Events {
    match RetryDelay(event.row.attempts, sample)
    case Err(_) => events
    case Ok(delay) =>
      if Fenced(events, event, now) then events[event.id := FailedRow(events[event.id], event, code, now, delay)] else events
  }

  // ---- claim ----

  /** Due, or abandoned by a worker whose lease ran out. */
  predicate Eligible(id: EventId, row: Row, filter: Filter, now: int) {
    && filter(id, row.info)
    && ((row.status == Pending && row.availableAt <= now)
        || (row.status == Processing && (row.claimUntil.None? || row.claimUntil.value <= now)))
  }

  predicate Exhausted(id: EventId, row: Row, filter: Filter, now: int) {
    Eligible(id, row, filter, now) && row.attempts >= MAX_ATTEMPTS
  }

  predicate Claimable(id: EventId, row: Row, filter: Filter, now: int) {
    Eligible(id, row, filter, now) && row.attempts < MAX_ATTEMPTS
  }

  function ExhaustedIds(events: Events, filter: Filter, now: int): set<EventId> {
    set id | id in events && Exhausted(id, events[id], filter, now)
  }

  function ClaimableIds(events: Events, filter: Filter, now: int): set<EventId> {
    set id | id in events && Claimable(id, events[id], filter, now)
  }

  /** Which rows an unordered "take n" query returns: any n of them, or all when there are fewer. */
  predicate Taken(batch: set<EventId>, all: set<EventId>, n: nat) {
    batch <= all && |batch| == Min(n, |all|)
  }

  function BuriedRow(row: Row, now: int): Row {
    Released(row).(status := DeadLetter, processedAt := Some(now), lastError := Some(AttemptsExhausted))
  }

  /** The rows after a batch of exhausted ones became dead letters. */
  function Bury(events: Events, batch: set<EventId>, now: int): (buried: Events)
    ensures buried.Keys == events.Keys
  {
    map id | id in events :: if id in batch then BuriedRow(events[id], now) else events[id]
  }

  /** orderBy occurredAt, then eventId. */
  predicate NotAfter(events: Events, a: EventId, b: EventId)
    requires a in events && b in events
  {
    events[a].occurredAt < events[b].occurredAt || (events[a].occurredAt == events[b].occurredAt && a <= b)
  }

  ghost predicate IsFirst(events: Events, ids: set<EventId>, id: EventId)
    requires ids <= events.Keys
  {
    id in ids && forall other :: other in ids ==> NotAfter(events, id, other)
  }

  function ClaimedRow(row: Row, owner: Owner, token: Token, now: int, leaseNow: int): Row {
    row.(status := Processing, claimOwner := Some(owner), claimToken := Some(token),
         claimUntil := Some(leaseNow + LEASE_MS), lastAttemptAt := Some(now), attempts := row.attempts + 1)
  }

  /** What a claim does to the rows and returns, once the buried batch and the candidate are known. */
  function Claimed(events: Events, batch: set<EventId>, candidate: Option<EventId>,
                   owner: Owner, token: Token, now: int, leaseNow: int): (Events, Option<Claim>)
    requires candidate.Some? ==> candidate.value in events
  {
    var buried := Bury(events, batch, now);
    match candidate
    case None => (buried, None)
    case Some(id) =>
      var row := ClaimedRow(buried[id], owner, token, now, leaseNow);
      (buried[id := row], Some(Claim(id, row)))
  }

  /** The batch and the candidate are the ones claimFrom selects. */
  ghost predicate Selected(events: Events, filter: Filter, now: int, batch: set<EventId>, candidate: Option<EventId>) {
    && Taken(batch, ExhaustedIds(events, filter, now), BATCH_SIZE)
    && match candidate
       case None => ClaimableIds(events, filter, now) == {}
       case Some(id) => IsFirst(events, ClaimableIds(events, filter, now), id)
  }

  // ---- budgets ----

  function ActiveIds(events: Events, group: Filter, now: int): set<EventId> {
    set id | id in events && group(id, events[id].info) && Leased(events[id], now)
  }

  predicate ValidBudgets(budgets: seq<Budget>) {
    |budgets| <= 8 && forall i :: 0 <= i < |budgets| ==> budgets[i].limit >= 1
  }

  predicate HasCapacity(events: Events, budgets: seq<Budget>, now: int) {
    forall i :: 0 <= i < |budgets| ==> |ActiveIds(events, budgets[i].group, now)| < budgets[i].limit
  }

  /** A claim takes rows that match its filter and every one of its budget groups. */
  function Narrowed(filter: Filter, budgets: seq<Budget>): Filter {
    (id: EventId, info: Info) => filter(id, info) && forall i :: 0 <= i < |budgets| ==> budgets[i].group(id, info)
  }
}
