/**
 Every interleaving of claims, acknowledgements, failures, lease expiries, producers and clock
 readings by any number of workers, and what holds in all of them.
 */
module OutboxRuns {
  import opened Base
  import opened Queues
  import opened Outbox

  /** The rows, every claim ever handed to a worker, the claims that were settled, how many claims of a
      timer no longer count as its attempts, and the true time. */
  datatype System = System(
    events: Events, issued: map<Token, Claim>, settled: seq<Token>, forgiven: map<EventId, nat>, clock: int)

  const TIMER_DUE := "timer.completion.due"

  predicate IsTimer(info: Info) {
    info.eventType == TIMER_DUE
  }

  /** Workers read their own clocks: now is a reading, not the true time. */
  datatype Step =
    | DoClaim(owner: Owner, token: Token, now: int, filter: Filter, budgets: seq<Budget>, leaseNow: int,
              batch: set<EventId>, candidate: Option<EventId>)
    | DoAck(token: Token, now: int)
    | DoFail(token: Token, code: ErrorCode, now: int, sample: real)
    // Source and remote workers settle their failed jobs themselves, with their own delays.
    | Requeue(token: Token, now: int, dead: bool, availableAt: int, code: ErrorCode)
    // A timer handled before its time gets its attempt back.
    | DeferEarly(token: Token, now: int, dueAt: int)
    // A starting worker revives the dead letter of a timer that still runs.
    | ReArm(id: EventId, availableAt: int, occurredAt: int)
    | Insert(id: EventId, info: Info, availableAt: int, occurredAt: int)
    | Supersede(ids: set<EventId>, at: int)
    | Tick(clock: int)

  ghost const START := System(map[], map[], [], map[], 0)

  ghost predicate ClaimEnabled(s: System, step: Step)
    requires step.DoClaim?
  {
    && step.token !in s.issued
    && ValidBudgets(step.budgets) && HasCapacity(s.events, step.budgets, step.now)
    && Selected(s.events, Narrowed(step.filter, step.budgets), step.now, step.batch, step.candidate)
    && (step.candidate.Some? ==> step.candidate.value in s.events)
  }

  /** Producers mark superseded schedules as delivered while they are still pending. */
  ghost function Superseded(events: Events, ids: set<EventId>, at: int): Events {
    map id | id in events ::
      if id in ids && events[id].status == Pending then events[id].(status := Delivered, processedAt := Some(at))
      else events[id]
  }

  ghost predicate AckSucceeds(s: System, token: Token, now: int) {
    token in s.issued && Fenced(s.events, s.issued[token], now)
  }

  ghost predicate FailSucceeds(s: System, token: Token, now: int, sample: real) {
    AckSucceeds(s, token, now) && 0.0 <= sample <= 1.0
  }

  ghost predicate RequeueEnabled(s: System, step: Step)
    requires step.Requeue?
  {
    AckSucceeds(s, step.token, step.now) && (step.dead || s.issued[step.token].row.attempts < MAX_ATTEMPTS)
  }

  function RequeuedRow(row: Row, dead: bool, now: int, availableAt: int, code: ErrorCode): Row {
    Released(row).(status := if dead then DeadLetter else Pending, processedAt := if dead then Some(now) else None,
                   availableAt := availableAt, lastError := Some(code))
  }

  ghost predicate DeferEnabled(s: System, token: Token, now: int) {
    AckSucceeds(s, token, now) && IsTimer(s.issued[token].row.info) && s.events[s.issued[token].id].attempts > 0
  }

  function DeferredRow(row: Row, dueAt: int): Row
    requires row.attempts > 0
  {
    Released(row).(status := Pending, availableAt := dueAt, attempts := row.attempts - 1, lastError := None)
  }

  predicate ReArmEnabled(s: System, id: EventId) {
    id in s.events && IsTimer(s.events[id].info) && s.events[id].status == DeadLetter
  }

  function ReArmedRow(row: Row, availableAt: int, occurredAt: int): Row {
    Released(row).(status := Pending, attempts := 0, availableAt := availableAt, occurredAt := occurredAt,
                   processedAt := None, lastError := None)
  }

  function Forgiven(s: System, id: EventId): nat {
    if id in s.forgiven then s.forgiven[id] else 0
  }

  function Forgive(s: System, id: EventId, claims: nat): System {
    s.(forgiven := s.forgiven[id := Forgiven(s, id) + claims])
  }

  ghost function Next(s: System, step: Step): System {
    match step
    case DoClaim(owner, token, now, filter, budgets, leaseNow, batch, candidate) =>
      if !ClaimEnabled(s, step) then s
      else
        var (events, claim) := Claimed(s.events, batch, candidate, owner, token, now, leaseNow);
        s.(events := events, issued := if claim.Some? then s.issued[token := claim.value] else s.issued)
    case DoAck(token, now) =>
      if !AckSucceeds(s, token, now) then s
      else s.(events := Ack(s.events, s.issued[token], now), settled := s.settled + [token])
    case DoFail(token, code, now, sample) =>
      if !FailSucceeds(s, token, now, sample) then s
      else s.(events := Fail(s.events, s.issued[token], code, now, sample), settled := s.settled + [token])
    case Requeue(token, now, dead, availableAt, code) =>
      if !RequeueEnabled(s, step) then s
      else
        var id := s.issued[token].id;
        s.(events := s.events[id := RequeuedRow(s.events[id], dead, now, availableAt, code)], settled := s.settled + [token])
    case DeferEarly(token, now, dueAt) =>
      if !DeferEnabled(s, token, now) then s
      else
        var id := s.issued[token].id;
        Forgive(s, id, 1).(events := s.events[id := DeferredRow(s.events[id], dueAt)], settled := s.settled + [token])
    case ReArm(id, availableAt, occurredAt) =>
      if !ReArmEnabled(s, id) then s
      else Forgive(s, id, s.events[id].attempts).(events := s.events[id := ReArmedRow(s.events[id], availableAt, occurredAt)])
    case Insert(id, info, availableAt, occurredAt) =>
      if id in s.events then s else s.(events := s.events[id := NewRow(info, availableAt, occurredAt)])
    case Supersede(ids, at) => s.(events := Superseded(s.events, ids, at))
    case Tick(clock) => s.(clock := Max(s.clock, clock))
  }

  ghost function Run(s: System, steps: seq<Step>): System {
    if steps == [] then s else Next(Run(s, steps[..|steps| - 1]), steps[|steps| - 1])
  }

  // ---- The invariant ----

  ghost predicate RowOk(issued: map<Token, Claim>, id: EventId, row: Row) {
    && row.attempts <= MAX_ATTEMPTS
    && (row.status == Pending ==> row.attempts < MAX_ATTEMPTS)
    && (row.status != Processing ==> row.claimToken.None? && row.claimOwner.None? && row.claimUntil.None?)
    && (row.status == Processing ==>
          && row.claimToken.Some? && row.claimToken.value in issued
          && issued[row.claimToken.value] == Claim(id, row) && row.claimUntil.Some?)
  }

  ghost predicate IssuedOk(events: Events, token: Token, claim: Claim) {
    && claim.id in events
    && claim.row.claimToken == Some(token) && claim.row.status == Processing
    && claim.row.info == events[claim.id].info
  }

  ghost function ClaimsOf(issued: map<Token, Claim>, id: EventId): set<Token> {
    set token | token in issued && issued[token].id == id
  }

  /** The row can still be settled by this token. */
  ghost predicate Holds(s: System, token: Token) {
    token in s.issued && s.issued[token].id in s.events && s.events[s.issued[token].id].claimToken == Some(token)
  }

  ghost predicate RowsOk(s: System) {
    && (forall id :: id in s.events ==> RowOk(s.issued, id, s.events[id]))
    && (forall token :: token in s.issued ==> IssuedOk(s.events, token, s.issued[token]))
  }

  /** Every claim of an event is one of its attempts or, for a timer, was forgiven. */
  ghost predicate Counted(s: System) {
    && (forall id :: id in s.events ==> |ClaimsOf(s.issued, id)| == s.events[id].attempts + Forgiven(s, id))
    && (forall id :: id in s.forgiven ==> id in s.events && IsTimer(s.events[id].info))
  }

  ghost predicate SettledOk(s: System) {
    && (forall i :: 0 <= i < |s.settled| ==> s.settled[i] in s.issued && !Holds(s, s.settled[i]))
    && (forall i, j :: 0 <= i < j < |s.settled| ==> s.settled[i] != s.settled[j])
  }

  ghost predicate Invariant(s: System) {
    RowsOk(s) && Counted(s) && SettledOk(s)
  }

  lemma FencedMeansHeld(s: System, token: Token, now: int)
    requires RowsOk(s) && AckSucceeds(s, token, now)
    ensures Holds(s, token) && s.events[s.issued[token].id] == s.issued[token].row
    ensures s.issued[token].row.attempts <= MAX_ATTEMPTS
  {
    var claim := s.issued[token];
    assert IssuedOk(s.events, token, claim);
    assert RowOk(s.issued, claim.id, s.events[claim.id]);
  }

  // ---- Rows that change without a new claim ----

  /** A row is as before, or it was replaced by one that nobody holds. */
  predicate Moved(was: Row, row: Row) {
    row == was || (&& row.info == was.info && row.status != Processing && row.claimToken.None? && row.claimOwner.None?
                   && row.claimUntil.None? && row.attempts <= MAX_ATTEMPTS && (row.status == Pending ==> row.attempts < MAX_ATTEMPTS))
  }

  predicate AllMoved(s: System, t: System) {
    t.issued == s.issued && t.events.Keys == s.events.Keys && forall id :: id in s.events ==> Moved(s.events[id], t.events[id])
  }

  lemma MovedRows(s: System, t: System)
    requires RowsOk(s) && AllMoved(s, t)
    ensures RowsOk(t)
  {
    forall id | id in t.events ensures RowOk(t.issued, id, t.events[id]) {
      assert RowOk(s.issued, id, s.events[id]) && Moved(s.events[id], t.events[id]);
    }
    forall token | token in t.issued ensures IssuedOk(t.events, token, t.issued[token]) {
      assert IssuedOk(s.events, token, s.issued[token]);
    }
  }

  /** Who did not hold a row does not hold one now. */
  lemma MovedHolds(s: System, t: System, token: Token)
    requires AllMoved(s, t) && !Holds(s, token)
    ensures !Holds(t, token)
  {
    if token in s.issued && s.issued[token].id in s.events {
      assert Moved(s.events[s.issued[token].id], t.events[s.issued[token].id]);
    }
  }

  lemma MovedSettled(s: System, t: System)
    requires SettledOk(s) && AllMoved(s, t) && t.settled == s.settled
    ensures SettledOk(t)
  {
    forall i | 0 <= i < |t.settled| ensures t.settled[i] in t.issued && !Holds(t, t.settled[i]) {
      MovedHolds(s, t, s.settled[i]);
    }
  }

  lemma MovedAndSettled(s: System, t: System, token: Token)
    requires SettledOk(s) && AllMoved(s, t) && t.settled == s.settled + [token]
    requires Holds(s, token) && !Holds(t, token)
    ensures SettledOk(t)
  {
    forall i | 0 <= i < |s.settled| ensures s.settled[i] in t.issued && !Holds(t, s.settled[i]) && s.settled[i] != token {
      MovedHolds(s, t, s.settled[i]);
    }
  }

  predicate SameCounts(s: System, t: System) {
    && t.issued == s.issued && t.events.Keys == s.events.Keys
    && (forall id :: id in s.events ==>
          && t.events[id].info == s.events[id].info
          && t.events[id].attempts + Forgiven(t, id) == s.events[id].attempts + Forgiven(s, id))
    && (forall id :: id in t.forgiven ==> id in s.forgiven || (id in s.events && IsTimer(s.events[id].info)))
  }

  lemma CountsMove(s: System, t: System)
    requires Counted(s) && SameCounts(s, t)
    ensures Counted(t)
  {
  }

  lemma MovedKeeps(s: System, t: System)
    requires Invariant(s) && AllMoved(s, t) && SameCounts(s, t) && t.settled == s.settled
    ensures Invariant(t)
  {
    MovedRows(s, t);
    MovedSettled(s, t);
    CountsMove(s, t);
  }

  /** A settled row: pending only below the attempt budget, and never held by this token again. Only a
      timer may get the attempt back. */
  lemma SettleKeeps(s: System, t: System, token: Token, row: Row)
    requires Invariant(s) && Holds(s, token) && t.settled == s.settled + [token] && t.issued == s.issued
    requires t.events == s.events[s.issued[token].id := row] && Moved(s.events[s.issued[token].id], row) && row.claimToken.None?
    requires SameCounts(s, t)
    ensures Invariant(t)
  {
    assert AllMoved(s, t);
    MovedRows(s, t);
    MovedAndSettled(s, t, token);
    CountsMove(s, t);
  }

  lemma AckKeeps(s: System, token: Token, now: int)
    requires Invariant(s)
    ensures Invariant(Next(s, DoAck(token, now)))
  {
    if AckSucceeds(s, token, now) {
      FencedMeansHeld(s, token, now);
      SettleKeeps(s, Next(s, DoAck(token, now)), token, Acknowledged(s.events[s.issued[token].id], now));
    }
  }

  lemma FailKeeps(s: System, token: Token, code: ErrorCode, now: int, sample: real)
    requires Invariant(s)
    ensures Invariant(Next(s, DoFail(token, code, now, sample)))
  {
    if FailSucceeds(s, token, now, sample) {
      FencedMeansHeld(s, token, now);
      var claim := s.issued[token];
      var delay := RetryDelay(claim.row.attempts, sample).value;
      SettleKeeps(s, Next(s, DoFail(token, code, now, sample)), token, FailedRow(s.events[claim.id], claim, code, now, delay));
    }
  }

  lemma RequeueKeeps(s: System, step: Step)
    requires Invariant(s) && step.Requeue?
    ensures Invariant(Next(s, step))
  {
    if RequeueEnabled(s, step) {
      FencedMeansHeld(s, step.token, step.now);
      var row := s.events[s.issued[step.token].id];
      SettleKeeps(s, Next(s, step), step.token, RequeuedRow(row, step.dead, step.now, step.availableAt, step.code));
    }
  }

  lemma DeferKeeps(s: System, token: Token, now: int, dueAt: int)
    requires Invariant(s)
    ensures Invariant(Next(s, DeferEarly(token, now, dueAt)))
  {
    if DeferEnabled(s, token, now) {
      FencedMeansHeld(s, token, now);
      SettleKeeps(s, Next(s, DeferEarly(token, now, dueAt)), token, DeferredRow(s.events[s.issued[token].id], dueAt));
    }
  }

  lemma ReArmKeeps(s: System, id: EventId, availableAt: int, occurredAt: int)
    requires Invariant(s)
    ensures Invariant(Next(s, ReArm(id, availableAt, occurredAt)))
  {
    if ReArmEnabled(s, id) {
      var t := Next(s, ReArm(id, availableAt, occurredAt));
      assert s.events[id].claimToken.None? by {
        assert RowOk(s.issued, id, s.events[id]);
      }
      assert t.events == s.events[id := t.events[id]];
      MovedKeeps(s, t);
    }
  }

  lemma SupersedeKeeps(s: System, ids: set<EventId>, at: int)
    requires Invariant(s)
    ensures Invariant(Next(s, Supersede(ids, at)))
  {
    var t := Next(s, Supersede(ids, at));
    forall id | id in s.events ensures Moved(s.events[id], t.events[id]) {
      assert RowOk(s.issued, id, s.events[id]);
    }
    MovedKeeps(s, t);
  }

  // ---- Rows and claims that are new ----

  lemma NoClaimsYet(s: System, id: EventId)
    requires RowsOk(s) && id !in s.events
    ensures ClaimsOf(s.issued, id) == {}
  {
    forall token | token in s.issued ensures s.issued[token].id != id {
      assert IssuedOk(s.events, token, s.issued[token]);
    }
  }

  lemma InsertRows(s: System, id: EventId, row: Row)
    requires RowsOk(s) && SettledOk(s) && id !in s.events && RowOk(s.issued, id, row)
    requires row.claimToken.None?
    ensures RowsOk(s.(events := s.events[id := row])) && SettledOk(s.(events := s.events[id := row]))
  {
    var t := s.(events := s.events[id := row]);
    forall other | other in t.events ensures RowOk(t.issued, other, t.events[other]) {
      assert other != id ==> RowOk(s.issued, other, s.events[other]);
    }
    forall token | token in t.issued ensures IssuedOk(t.events, token, t.issued[token]) {
      assert IssuedOk(s.events, token, s.issued[token]);
    }
    forall i | 0 <= i < |t.settled| ensures t.settled[i] in t.issued && !Holds(t, t.settled[i]) {
      assert s.settled[i] in s.issued && !Holds(s, s.settled[i]);
    }
  }

  lemma InsertKeeps(s: System, id: EventId, row: Row)
    requires Invariant(s) && id !in s.events
    requires row.status == Pending && row.attempts == 0
    requires row.claimToken.None? && row.claimOwner.None? && row.claimUntil.None?
    ensures Invariant(s.(events := s.events[id := row]))
  {
    InsertRows(s, id, row);
    NoClaimsYet(s, id);
  }

  lemma TakeCounts(issued: map<Token, Claim>, token: Token, claim: Claim, id: EventId)
    requires token !in issued
    ensures |ClaimsOf(issued[token := claim], id)| == |ClaimsOf(issued, id)| + if claim.id == id then 1 else 0
  {
    if claim.id == id {
      assert ClaimsOf(issued[token := claim], id) == ClaimsOf(issued, id) + {token};
    } else {
      assert ClaimsOf(issued[token := claim], id) == ClaimsOf(issued, id);
    }
  }

  function HandedOut(s: System, id: EventId, row: Row, token: Token): System {
    s.(events := s.events[id := row], issued := s.issued[token := Claim(id, row)])
  }

  predicate Takes(s: System, id: EventId, row: Row, token: Token) {
    && id in s.events && token !in s.issued && s.events[id].attempts < MAX_ATTEMPTS
    && row.info == s.events[id].info && row.attempts == s.events[id].attempts + 1
    && row.status == Processing && row.claimToken == Some(token) && row.claimUntil.Some?
  }

  lemma TakeRows(s: System, id: EventId, row: Row, token: Token)
    requires RowsOk(s) && Takes(s, id, row, token)
    ensures RowsOk(HandedOut(s, id, row, token))
  {
    var t := HandedOut(s, id, row, token);
    forall other | other in t.events ensures RowOk(t.issued, other, t.events[other]) {
      assert RowOk(s.issued, other, s.events[other]);
    }
    forall k | k in t.issued ensures IssuedOk(t.events, k, t.issued[k]) {
      assert k != token ==> IssuedOk(s.events, k, s.issued[k]);
    }
  }

  lemma TakeCounted(s: System, id: EventId, row: Row, token: Token)
    requires Counted(s) && Takes(s, id, row, token)
    ensures Counted(HandedOut(s, id, row, token))
  {
    var t := HandedOut(s, id, row, token);
    forall other | other in t.events ensures |ClaimsOf(t.issued, other)| == t.events[other].attempts + Forgiven(t, other) {
      TakeCounts(s.issued, token, Claim(id, row), other);
    }
  }

  lemma TakeSettled(s: System, id: EventId, row: Row, token: Token)
    requires SettledOk(s) && Takes(s, id, row, token)
    ensures SettledOk(HandedOut(s, id, row, token))
  {
    var t := HandedOut(s, id, row, token);
    forall i | 0 <= i < |t.settled| ensures t.settled[i] in t.issued && !Holds(t, t.settled[i]) {
      assert s.settled[i] in s.issued && !Holds(s, s.settled[i]);
    }
  }

  lemma BuriedMoved(s: System, batch: set<EventId>, filter: Filter, now: int)
    requires RowsOk(s) && batch <= ExhaustedIds(s.events, filter, now)
    ensures AllMoved(s, s.(events := Bury(s.events, batch, now))) && SameCounts(s, s.(events := Bury(s.events, batch, now)))
  {
    forall id | id in s.events ensures Moved(s.events[id], Bury(s.events, batch, now)[id]) {
      assert RowOk(s.issued, id, s.events[id]);
    }
  }

  lemma ClaimKeeps(s: System, step: Step)
    requires Invariant(s) && step.DoClaim?
    ensures Invariant(Next(s, step))
  {
    if ClaimEnabled(s, step) {
      var filter := Narrowed(step.filter, step.budgets);
      var t := s.(events := Bury(s.events, step.batch, step.now));
      BuriedMoved(s, step.batch, filter, step.now);
      MovedKeeps(s, t);
      if step.candidate.Some? {
        var id := step.candidate.value;
        assert id in ClaimableIds(s.events, filter, step.now);
        assert id !in step.batch;
        var row := ClaimedRow(t.events[id], step.owner, step.token, step.now, step.leaseNow);
        TakeRows(t, id, row, step.token);
        TakeCounted(t, id, row, step.token);
        TakeSettled(t, id, row, step.token);
      }
    }
  }

  lemma NextKeeps(s: System, step: Step)
    requires Invariant(s)
    ensures Invariant(Next(s, step))
  {
    match step
    case DoClaim(_, _, _, _, _, _, _, _) => ClaimKeeps(s, step);
    case DoAck(token, now) => AckKeeps(s, token, now);
    case DoFail(token, code, now, sample) => FailKeeps(s, token, code, now, sample);
    case Requeue(_, _, _, _, _) => RequeueKeeps(s, step);
    case DeferEarly(token, now, dueAt) => DeferKeeps(s, token, now, dueAt);
    case ReArm(id, availableAt, occurredAt) => ReArmKeeps(s, id, availableAt, occurredAt);
    case Insert(id, info, availableAt, occurredAt) =>
      if id !in s.events {
        InsertKeeps(s, id, NewRow(info, availableAt, occurredAt));
      }
    case Supersede(ids, at) => SupersedeKeeps(s, ids, at);
    case Tick(_) => MovedKeeps(s, Next(s, step));
  }

  lemma {:induction false} RunKeeps(s: System, steps: seq<Step>)
    requires Invariant(s)
    ensures Invariant(Run(s, steps))
    decreases |steps|
  {
    if steps != [] {
      RunKeeps(s, steps[..|steps| - 1]);
      NextKeeps(Run(s, steps[..|steps| - 1]), steps[|steps| - 1]);
    }
  }

  /** Rows are never removed here, and what identifies an event never changes. */
  lemma InfoStep(s: System, step: Step, id: EventId)
    requires id in s.events
    ensures id in Next(s, step).events && Next(s, step).events[id].info == s.events[id].info
  {
  }

  lemma StartInvariant()
    ensures Invariant(START)
  {
  }

  // ---- Attempts ----

  /** Whatever happens, an event that is not a timer is handed out at most five times, once per counted
      attempt; every pending event has an attempt left. */
  lemma AttemptBudget(steps: seq<Step>, id: EventId)
    requires id in Run(START, steps).events
    ensures var s := Run(START, steps);
            && |ClaimsOf(s.issued, id)| == s.events[id].attempts + Forgiven(s, id) && s.events[id].attempts <= MAX_ATTEMPTS
            && (!IsTimer(s.events[id].info) ==> |ClaimsOf(s.issued, id)| == s.events[id].attempts <= 5)
            && (s.events[id].status == Pending ==> s.events[id].attempts < MAX_ATTEMPTS)
  {
    StartInvariant();
    RunKeeps(START, steps);
    assert RowOk(Run(START, steps).issued, id, Run(START, steps).events[id]);
  }

  /** Hand-outs of a timer that were given back because it was early. */
  ghost function Deferrals(s: System, steps: seq<Step>, id: EventId): nat {
    if steps == [] then 0
    else
      var before, step := Run(s, steps[..|steps| - 1]), steps[|steps| - 1];
      Deferrals(s, steps[..|steps| - 1], id)
      + if step.DeferEarly? && DeferEnabled(before, step.token, step.now) && before.issued[step.token].id == id then 1 else 0
  }

  /** Nothing in these steps revives this event. */
  ghost predicate NotReArmed(steps: seq<Step>, id: EventId) {
    forall i :: 0 <= i < |steps| ==> !(steps[i].ReArm? && steps[i].id == id)
  }

  lemma ForgivenStep(s: System, step: Step, id: EventId)
    requires !(step.ReArm? && step.id == id)
    ensures Forgiven(Next(s, step), id)
            == Forgiven(s, id) + if step.DeferEarly? && DeferEnabled(s, step.token, step.now) && s.issued[step.token].id == id then 1 else 0
  {
  }

  lemma {:induction false} OnlyDeferralsForgive(s: System, steps: seq<Step>, id: EventId)
    requires NotReArmed(steps, id)
    ensures Forgiven(Run(s, steps), id) == Forgiven(s, id) + Deferrals(s, steps, id)
    decreases |steps|
  {
    if steps != [] {
      OnlyDeferralsForgive(s, steps[..|steps| - 1], id);
      ForgivenStep(Run(s, steps[..|steps| - 1]), steps[|steps| - 1], id);
    }
  }

  /** From the creation of a row or a revival on, until the next revival, a timer is handed out at most
      five times besides those hand-outs it gave back. */
  lemma FivePerArming(s: System, steps: seq<Step>, id: EventId)
    requires Invariant(s) && id in s.events && s.events[id].attempts == 0 && NotReArmed(steps, id)
    ensures |ClaimsOf(Run(s, steps).issued, id)| <= |ClaimsOf(s.issued, id)| + 5 + Deferrals(s, steps, id)
  {
    RunKeeps(s, steps);
    OnlyDeferralsForgive(s, steps, id);
    InfoForever(s, steps, id);
    assert RowOk(Run(s, steps).issued, id, Run(s, steps).events[id]);
  }

  lemma {:induction false} InfoForever(s: System, steps: seq<Step>, id: EventId)
    requires id in s.events
    ensures id in Run(s, steps).events && Run(s, steps).events[id].info == s.events[id].info
    decreases |steps|
  {
    if steps != [] {
      InfoForever(s, steps[..|steps| - 1], id);
      InfoStep(Run(s, steps[..|steps| - 1]), steps[|steps| - 1], id);
    }
  }

  // ---- Terminal rows ----

  /** Delivered is final for everything, a dead letter for everything but timers. */
  predicate Terminal(row: Row) {
    row.status == Delivered || (row.status == DeadLetter && !IsTimer(row.info))
  }

  /** The dead letter of a timer changes by nothing but a revival, which gives it five attempts again. */
  lemma DeadStep(s: System, step: Step, id: EventId)
    requires id in s.events && (s.events[id].status == Delivered || s.events[id].status == DeadLetter)
    ensures id in Next(s, step).events
    ensures Next(s, step).events[id] != s.events[id] ==>
              && step.ReArm? && step.id == id && IsTimer(s.events[id].info) && s.events[id].status == DeadLetter
              && Next(s, step).events[id].status == Pending && Next(s, step).events[id].attempts == 0
  {
    if step.DoClaim? && ClaimEnabled(s, step) {
      var filter := Narrowed(step.filter, step.budgets);
      assert id !in ExhaustedIds(s.events, filter, step.now);
      assert id !in ClaimableIds(s.events, filter, step.now);
    }
  }

  /** Delivered rows, and dead letters other than timers', never change again. */
  lemma {:induction false} TerminalForever(s: System, steps: seq<Step>, id: EventId)
    requires id in s.events && Terminal(s.events[id])
    ensures id in Run(s, steps).events && Run(s, steps).events[id] == s.events[id]
    decreases |steps|
  {
    if steps != [] {
      TerminalForever(s, steps[..|steps| - 1], id);
      DeadStep(Run(s, steps[..|steps| - 1]), steps[|steps| - 1], id);
    }
  }

  // ---- Fencing ----

  lemma LostStep(s: System, step: Step, token: Token)
    requires RowsOk(s) && token in s.issued && !Holds(s, token)
    ensures token in Next(s, step).issued && Next(s, step).issued[token] == s.issued[token] && !Holds(Next(s, step), token)
  {
    assert IssuedOk(s.events, token, s.issued[token]);
    TokenStep(s, step, s.issued[token].id);
  }

  /** A step either leaves a row's token, clears it, or puts a fresh one. */
  lemma TokenStep(s: System, step: Step, id: EventId)
    requires id in s.events
    ensures id in Next(s, step).events
    ensures var token := Next(s, step).events[id].claimToken;
            token == s.events[id].claimToken || token.None? || token.value !in s.issued
  {
  }

  lemma {:induction false} LostStays(s: System, steps: seq<Step>, token: Token)
    requires Invariant(s) && token in s.issued && !Holds(s, token)
    ensures var t := Run(s, steps);
            Invariant(t) && token in t.issued && !Holds(t, token)
    decreases |steps|
  {
    RunKeeps(s, steps);
    if steps != [] {
      LostStays(s, steps[..|steps| - 1], token);
      LostStep(Run(s, steps[..|steps| - 1]), steps[|steps| - 1], token);
    }
  }

  lemma LostCannotSettle(s: System, token: Token, now: int)
    requires RowsOk(s) && !Holds(s, token)
    ensures !AckSucceeds(s, token, now)
  {
    if AckSucceeds(s, token, now) {
      FencedMeansHeld(s, token, now);
    }
  }

  /** A claim that lost its row never gets it back: it can settle it in no way, and nothing it tries
      has any effect. */
  lemma LostForever(s: System, steps: seq<Step>, token: Token, now: int, code: ErrorCode, sample: real)
    requires Invariant(s) && token in s.issued && !Holds(s, token)
    ensures var t := Run(s, steps);
            && Invariant(t) && token in t.issued && !Holds(t, token) && !AckSucceeds(t, token, now)
            && Next(t, DoAck(token, now)) == t && Next(t, DoFail(token, code, now, sample)) == t
  {
    LostStays(s, steps, token);
    LostCannotSettle(Run(s, steps), token, now);
  }

  /** Once a newer claim took the row, an older claim can neither acknowledge nor fail it, ever. */
  lemma NewerClaimFencesOlder(s: System, claim: Step, older: Token, steps: seq<Step>, now: int, code: ErrorCode, sample: real)
    requires Invariant(s) && claim.DoClaim? && ClaimEnabled(s, claim) && claim.candidate.Some?
    requires older in s.issued && s.issued[older].id == claim.candidate.value
    ensures var t := Run(Next(s, claim), steps);
            Next(t, DoAck(older, now)) == t && Next(t, DoFail(older, code, now, sample)) == t
  {
    NextKeeps(s, claim);
    LostForever(Next(s, claim), steps, older, now, code, sample);
  }

  /** In every run each token settles its row at most once, and afterwards no longer holds it. */
  lemma SettledOnce(steps: seq<Step>, i: nat, j: nat)
    requires i < |Run(START, steps).settled| && j < |Run(START, steps).settled|
    ensures Run(START, steps).settled[i] == Run(START, steps).settled[j] ==> i == j
    ensures !Holds(Run(START, steps), Run(START, steps).settled[i])
  {
    StartInvariant();
    RunKeeps(START, steps);
  }

  /** A claim that still holds its row and reads a time before its lease end does settle it. */
  lemma HolderSettles(s: System, token: Token, now: int, code: ErrorCode, sample: real)
    requires Invariant(s) && Holds(s, token) && s.issued[token].row.claimUntil.value > now && 0.0 <= sample <= 1.0
    ensures var id := s.issued[token].id;
            var acked, failed := Next(s, DoAck(token, now)), Next(s, DoFail(token, code, now, sample));
            && acked.settled == failed.settled == s.settled + [token]
            && acked.events[id].status == Delivered
            && acked.events == s.events[id := acked.events[id]] && failed.events == s.events[id := failed.events[id]]
            && !Holds(acked, token) && !Holds(failed, token)
            && acked.events[id].attempts == failed.events[id].attempts == s.issued[token].row.attempts
            && failed.events[id].status
               == (if s.issued[token].row.attempts == MAX_ATTEMPTS || code == InvalidPayload then DeadLetter else Pending)
            && (failed.events[id].status == Pending ==> now + 1_000 <= failed.events[id].availableAt <= now + 72_000)
  {
    var claim := s.issued[token];
    assert IssuedOk(s.events, token, claim);
    assert RowOk(s.issued, claim.id, s.events[claim.id]);
    RetryDelayBounds(claim.row.attempts, claim.row.attempts, sample);
  }

  /** A claim hands out the oldest waiting row of its filter with one more attempt, and exactly until
      its lease ends it can be settled; every other row is as before or became a dead letter because its
      attempts were used up. */
  lemma ClaimHandsOut(s: System, step: Step, other: EventId, at: int)
    requires Invariant(s) && step.DoClaim? && ClaimEnabled(s, step) && step.candidate.Some?
    requires other in s.events && other != step.candidate.value
    ensures var t, id := Next(s, step), step.candidate.value;
            && Claimable(id, s.events[id], Narrowed(step.filter, step.budgets), step.now)
            && t.events[id].attempts == s.events[id].attempts + 1 <= MAX_ATTEMPTS
            && Holds(t, step.token) && (AckSucceeds(t, step.token, at) <==> at < step.leaseNow + 30_000)
            && (t.events[other] == s.events[other]
                || (t.events[other].status == DeadLetter && s.events[other].attempts >= MAX_ATTEMPTS
                    && Eligible(other, s.events[other], Narrowed(step.filter, step.budgets), step.now)))
            && (Claimable(other, s.events[other], Narrowed(step.filter, step.budgets), step.now) ==>
                  t.events[other] == s.events[other] && NotAfter(s.events, id, other))
  {
    var filter, id := Narrowed(step.filter, step.budgets), step.candidate.value;
    assert id in ClaimableIds(s.events, filter, step.now);
    assert other in step.batch ==> other in ExhaustedIds(s.events, filter, step.now);
    assert Claimable(other, s.events[other], filter, step.now) ==> other in ClaimableIds(s.events, filter, step.now);
  }
}
