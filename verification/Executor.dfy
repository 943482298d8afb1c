/**
 The isolated executor's queue (backend/src/isolation/isolated-executor.ts): at most two children, at
 most sixteen waiting tasks, and one settlement for every task it admitted.
 */
module Executor {
  import opened Base

  type TaskId = nat

  const CONCURRENCY := 2
  const PENDING := 16

  datatype Code =
    | InvalidInput | Busy | TimedOut | Aborted | Failed | InvalidOutput | OutputLimit | MemoryLimit | Crash | Unavailable

  datatype Outcome = Resolved | Rejected(code: Code)

  /** Whether a task's child can be spawned, at the moment it is asked; None means it can. */
  type Spawns = TaskId -> Option<Code>

  /** Active tasks carry the code that forces their end. */
  datatype State = State(
    closing: bool,
    pending: seq<TaskId>,
    active: map<TaskId, Option<Code>>,
    settled: map<TaskId, Outcome>,
    admitted: nat,
    started: nat,
    completed: nat,
    failed: nat,
    killed: nat)

  const EMPTY := State(false, [], map[], map[], 0, 0, 0, 0, 0)

  function Settle(s: State, id: TaskId, outcome: Outcome): State {
    s.(settled := s.settled[id := outcome],
       completed := if outcome.Resolved? then s.completed + 1 else s.completed,
       failed := if outcome.Resolved? then s.failed else s.failed + 1)
  }

  /** A task that left the queue becomes a child or fails. */
  function Start(s: State, id: TaskId, spawns: Spawns): State {
    if s.closing then Settle(s, id, Rejected(Aborted))
    else
      match spawns(id)
      case Some(code) => Settle(s, id, Rejected(code))
      case None => s.(active := s.active[id := None], started := s.started + 1)
  }

  function Drain(s: State, spawns: Spawns): State
    decreases |s.pending|
  {
    if s.closing || |s.active| >= CONCURRENCY || s.pending == [] then s
    else Drain(Start(s.(pending := s.pending[1..]), s.pending[0], spawns), spawns)
  }

  function Admit(s: State, id: TaskId): State {
    s.(pending := s.pending + [id], admitted := s.admitted + 1)
  }

  /** executeIsolated: refused outright, or admitted and settled later. */
  function Submit(s: State, id: TaskId, aborted: bool, valid: bool, spawns: Spawns): (State, Option<Code>) {
    if s.closing || aborted then (s, Some(Aborted))
    else if |s.pending| >= PENDING then (s, Some(Busy))
    else if !valid then (s, Some(InvalidInput))
    else (Drain(Admit(s, id), spawns), None)
  }

  function Without(tasks: seq<TaskId>, id: TaskId): seq<TaskId> {
    if tasks == [] then []
    else if tasks[0] == id then tasks[1..]
    else [tasks[0]] + Without(tasks[1..], id)
  }

  /** Abort or timeout while waiting. */
  function RejectPending(s: State, id: TaskId, code: Code): State {
    if id !in s.pending then s else Settle(s.(pending := Without(s.pending, id)), id, Rejected(code))
  }

  /** Abort, timeout or an output limit while running: the child is killed once. */
  function Stop(s: State, id: TaskId, code: Code): State {
    if id !in s.active || s.active[id].Some? then s else s.(active := s.active[id := Some(code)], killed := s.killed + 1)
  }

  /** A spawn error reported later forces the end without a kill. */
  function ChildError(s: State, id: TaskId): State {
    if id !in s.active || s.active[id].Some? then s else s.(active := s.active[id := Some(Unavailable)])
  }

  /** How a child ended: its exit, whether the caller gave up, and what is wrong with its output. */
  datatype Exit = Exit(crashed: bool, aborted: bool, problem: Option<Code>)

  /** What the closed child comes to, in the order in which the reasons are checked. */
  function Verdict(s: State, id: TaskId, exit: Exit): Outcome
    requires id in s.active
  {
    if s.active[id].Some? then Rejected(s.active[id].value)
    else if exit.crashed then Rejected(Crash)
    else if exit.aborted || s.closing then Rejected(Aborted)
    else if exit.problem.Some? then Rejected(exit.problem.value)
    else Resolved
  }

  function ChildClosed(s: State, id: TaskId, exit: Exit, spawns: Spawns): State {
    if id !in s.active then s
    else Drain(Settle(s.(active := s.active - {id}), id, Verdict(s, id, exit)), spawns)
  }

  function RejectAll(s: State): State
    decreases |s.pending|
  {
    if s.pending == [] then s
    else RejectAll(Settle(s.(pending := s.pending[1..]), s.pending[0], Rejected(Aborted)))
  }

  function Unforced(active: map<TaskId, Option<Code>>): set<TaskId> {
    set id | id in active && active[id].None?
  }

  function Forced(active: map<TaskId, Option<Code>>): map<TaskId, Option<Code>> {
    map id | id in active :: if active[id].None? then Some(Aborted) else active[id]
  }

  /** Every running child is stopped, unless it already was. */
  function StopAll(s: State): State {
    s.(active := Forced(s.active), killed := s.killed + |Unforced(s.active)|)
  }

  function Shutdown(s: State): State {
    StopAll(RejectAll(s.(closing := true)))
  }

  // ---- The invariant ----

  ghost predicate Distinct(tasks: seq<TaskId>) {
    forall i, j :: 0 <= i < j < |tasks| ==> tasks[i] != tasks[j]
  }

  /** Every task is waiting, running or settled, and in one of these only; the totals add up. */
  ghost predicate Accounted(s: State) {
    && Distinct(s.pending) && |s.pending| <= PENDING && |s.active| <= CONCURRENCY
    && (forall id :: id in s.pending ==> id !in s.active && id !in s.settled)
    && (forall id :: id in s.active ==> id !in s.settled)
    && |s.settled| == s.completed + s.failed
    && s.admitted == |s.pending| + |s.active| + s.completed + s.failed
  }

  /** No capacity is idle while a task waits, and nothing waits after the shutdown. */
  predicate NoIdle(s: State) {
    (s.pending != [] ==> !s.closing && |s.active| == CONCURRENCY)
  }

  ghost predicate Valid(s: State) {
    Accounted(s) && NoIdle(s)
  }

  predicate Known(s: State, id: TaskId) {
    id in s.pending || id in s.active || id in s.settled
  }

  lemma InsertSize<V>(m: map<TaskId, V>, id: TaskId, value: V)
    requires id !in m
    ensures |m[id := value]| == |m| + 1
  {
    assert m[id := value].Keys == m.Keys + {id};
  }

  lemma RemoveSize<V>(m: map<TaskId, V>, id: TaskId)
    requires id in m
    ensures |m - {id}| == |m| - 1
  {
    assert (m - {id}).Keys == m.Keys - {id};
  }

  /** A task that is in none of the three places any more settles. */
  lemma SettleKeeps(s: State, id: TaskId, outcome: Outcome)
    requires s.admitted >= 1 && Accounted(s.(admitted := s.admitted - 1)) && !Known(s, id)
    ensures Accounted(Settle(s, id, outcome))
  {
    InsertSize(s.settled, id, outcome);
  }

  lemma StartKeeps(s: State, id: TaskId, spawns: Spawns)
    requires s.admitted >= 1 && Accounted(s.(admitted := s.admitted - 1)) && !Known(s, id) && |s.active| < CONCURRENCY
    ensures Accounted(Start(s, id, spawns))
  {
    if s.closing || spawns(id).Some? {
      SettleKeeps(s, id, if s.closing then Rejected(Aborted) else Rejected(spawns(id).value));
    } else {
      InsertSize<Option<Code>>(s.active, id, None);
    }
  }

  lemma PopKeeps(s: State)
    requires Accounted(s) && s.pending != []
    ensures var t := s.(pending := s.pending[1..]);
            && t.admitted >= 1 && Accounted(t.(admitted := t.admitted - 1)) && !Known(t, s.pending[0])
  {
    assert s.pending[0] !in s.pending[1..];
  }

  lemma {:induction false} DrainKeeps(s: State, spawns: Spawns)
    requires Accounted(s)
    ensures Accounted(Drain(s, spawns))
    ensures Drain(s, spawns).pending != [] ==> s.closing || |Drain(s, spawns).active| == CONCURRENCY
    ensures Drain(s, spawns).closing == s.closing
    decreases |s.pending|
  {
    if !(s.closing || |s.active| >= CONCURRENCY || s.pending == []) {
      PopKeeps(s);
      var t := s.(pending := s.pending[1..]);
      StartKeeps(t, s.pending[0], spawns);
      DrainKeeps(Start(t, s.pending[0], spawns), spawns);
    }
  }

  lemma DrainValid(s: State, spawns: Spawns)
    requires Accounted(s) && !s.closing
    ensures Valid(Drain(s, spawns))
  {
    DrainKeeps(s, spawns);
  }

  lemma AppendKeeps(s: State, id: TaskId)
    requires Accounted(s) && !Known(s, id) && |s.pending| < PENDING
    ensures Accounted(Admit(s, id))
  {
    var tasks := s.pending + [id];
    forall i, j | 0 <= i < j < |tasks| ensures tasks[i] != tasks[j] {
      assert tasks[i] == s.pending[i];
    }
  }

  lemma SubmitKeeps(s: State, id: TaskId, aborted: bool, valid: bool, spawns: Spawns)
    requires Valid(s) && !Known(s, id)
    ensures Valid(Submit(s, id, aborted, valid, spawns).0)
  {
    if Submit(s, id, aborted, valid, spawns).1.None? {
      AppendKeeps(s, id);
      DrainValid(Admit(s, id), spawns);
    }
  }

  lemma {:induction false} WithoutExact(tasks: seq<TaskId>, id: TaskId)
    requires Distinct(tasks) && id in tasks
    ensures var rest := Without(tasks, id);
            && |rest| == |tasks| - 1 && Distinct(rest)
            && forall other :: other in rest <==> other in tasks && other != id
    decreases |tasks|
  {
    if tasks[0] != id {
      WithoutExact(tasks[1..], id);
      var rest := Without(tasks[1..], id);
      assert forall other :: other in tasks <==> other == tasks[0] || other in tasks[1..];
      assert tasks[0] !in rest;
    } else {
      assert forall other :: other in tasks <==> other == tasks[0] || other in tasks[1..];
    }
  }

  lemma RejectKeeps(s: State, id: TaskId, code: Code)
    requires Valid(s)
    ensures Valid(RejectPending(s, id, code))
  {
    if id in s.pending {
      WithoutExact(s.pending, id);
      SettleKeeps(s.(pending := Without(s.pending, id)), id, Rejected(code));
    }
  }

  lemma ForceKeeps(s: State, t: State)
    requires Valid(s)
    requires t == s.(active := t.active, killed := t.killed) && t.active.Keys == s.active.Keys
    ensures Valid(t)
  {
    assert |t.active| == |t.active.Keys| && |s.active| == |s.active.Keys|;
  }

  lemma ClosedKeeps(s: State, id: TaskId, exit: Exit, spawns: Spawns)
    requires Valid(s)
    ensures Valid(ChildClosed(s, id, exit, spawns))
  {
    if id in s.active {
      RemoveSize(s.active, id);
      var t := s.(active := s.active - {id});
      SettleKeeps(t, id, Verdict(s, id, exit));
      DrainKeeps(Settle(t, id, Verdict(s, id, exit)), spawns);
    }
  }

  lemma {:induction false} RejectAllKeeps(s: State)
    requires Accounted(s)
    ensures Accounted(RejectAll(s)) && RejectAll(s).pending == []
    ensures RejectAll(s).active == s.active && RejectAll(s).closing == s.closing && RejectAll(s).started == s.started
    ensures RejectAll(s).killed == s.killed
    decreases |s.pending|
  {
    if s.pending != [] {
      PopKeeps(s);
      SettleKeeps(s.(pending := s.pending[1..]), s.pending[0], Rejected(Aborted));
      RejectAllKeeps(Settle(s.(pending := s.pending[1..]), s.pending[0], Rejected(Aborted)));
    }
  }

  lemma ShutdownKeeps(s: State)
    requires Valid(s)
    ensures Valid(Shutdown(s)) && Shutdown(s).pending == [] && Shutdown(s).closing
  {
    RejectAllKeeps(s.(closing := true));
    var t := RejectAll(s.(closing := true));
    assert Shutdown(s).active.Keys == t.active.Keys;
    ForceKeeps(t, Shutdown(s));
  }

  // ---- Every history ----

  datatype Step =
    | DoSubmit(id: TaskId, aborted: bool, valid: bool, spawns: Spawns)
    | DoReject(id: TaskId, code: Code)
    | DoStop(id: TaskId, code: Code)
    | DoChildError(id: TaskId)
    | DoChildClosed(id: TaskId, exit: Exit, spawns: Spawns)
    | DoShutdown

  /** A submitted task is a new object. */
  ghost function Next(s: State, step: Step): State {
    match step
    case DoSubmit(id, aborted, valid, spawns) => if Known(s, id) then s else Submit(s, id, aborted, valid, spawns).0
    case DoReject(id, code) => RejectPending(s, id, code)
    case DoStop(id, code) => Stop(s, id, code)
    case DoChildError(id) => ChildError(s, id)
    case DoChildClosed(id, exit, spawns) => ChildClosed(s, id, exit, spawns)
    case DoShutdown => Shutdown(s)
  }

  ghost function Run(s: State, steps: seq<Step>): State {
    if steps == [] then s else Next(Run(s, steps[..|steps| - 1]), steps[|steps| - 1])
  }

  lemma NextKeeps(s: State, step: Step)
    requires Valid(s)
    ensures Valid(Next(s, step))
  {
    match step
    case DoSubmit(id, aborted, valid, spawns) =>
      if !Known(s, id) {
        SubmitKeeps(s, id, aborted, valid, spawns);
      }
    case DoReject(id, code) => RejectKeeps(s, id, code);
    case DoStop(_, _) => ForceKeeps(s, Next(s, step));
    case DoChildError(_) => ForceKeeps(s, Next(s, step));
    case DoChildClosed(id, exit, spawns) => ClosedKeeps(s, id, exit, spawns);
    case DoShutdown => ShutdownKeeps(s);
  }

  /** Over every sequence of submissions, aborts, timeouts, closed children and shutdowns: the limits
      hold, every admitted task is waiting, running or settled in one place only, and no capacity is
      idle while a task waits. */
  lemma {:induction false} AlwaysAccounted(s: State, steps: seq<Step>)
    requires Valid(s)
    ensures Valid(Run(s, steps))
    decreases |steps|
  {
    if steps != [] {
      AlwaysAccounted(s, steps[..|steps| - 1]);
      NextKeeps(Run(s, steps[..|steps| - 1]), steps[|steps| - 1]);
    }
  }

  /** Waiting tasks leave in the order in which they came. */
  lemma {:induction false} DrainsInOrder(s: State, spawns: Spawns)
    ensures |Drain(s, spawns).pending| <= |s.pending|
    ensures Drain(s, spawns).pending == s.pending[|s.pending| - |Drain(s, spawns).pending|..]
    decreases |s.pending|
  {
    if !(s.closing || |s.active| >= CONCURRENCY || s.pending == []) {
      DrainsInOrder(Start(s.(pending := s.pending[1..]), s.pending[0], spawns), spawns);
    }
  }

  /** From the empty queue on, every task that was ever admitted is waiting, running or settled. */
  lemma AccountedFromEmpty(steps: seq<Step>)
    ensures var s := Run(EMPTY, steps);
            && |s.active| <= 2 && |s.pending| <= 16 && s.admitted == |s.pending| + |s.active| + s.completed + s.failed
            && |s.settled| == s.completed + s.failed
            && (s.pending != [] ==> |s.active| == 2)
  {
    AlwaysAccounted(EMPTY, steps);
  }

  // ---- Settlement ----

  /** A settled task stays as it is, a running one runs or settles, and none is lost. */
  predicate KeepsTask(s: State, t: State, id: TaskId) {
    && (id in s.settled ==> id in t.settled && t.settled[id] == s.settled[id])
    && (id in s.active ==> id in t.active || id in t.settled)
    && (Known(s, id) ==> Known(t, id))
  }

  lemma {:induction false} DrainKeepsTask(s: State, spawns: Spawns, id: TaskId)
    requires Accounted(s)
    ensures KeepsTask(s, Drain(s, spawns), id)
    decreases |s.pending|
  {
    if !(s.closing || |s.active| >= CONCURRENCY || s.pending == []) {
      PopKeeps(s);
      var t, first := s.(pending := s.pending[1..]), s.pending[0];
      StartKeeps(t, first, spawns);
      DrainKeepsTask(Start(t, first, spawns), spawns, id);
      assert id in s.pending <==> id == first || id in t.pending;
    }
  }

  lemma {:induction false} RejectAllKeepsTask(s: State, id: TaskId)
    requires Accounted(s)
    ensures KeepsTask(s, RejectAll(s), id)
    decreases |s.pending|
  {
    if s.pending != [] {
      PopKeeps(s);
      var t, first := s.(pending := s.pending[1..]), s.pending[0];
      SettleKeeps(t, first, Rejected(Aborted));
      RejectAllKeepsTask(Settle(t, first, Rejected(Aborted)), id);
      assert id in s.pending <==> id == first || id in t.pending;
    }
  }

  lemma AdmitKeepsTask(s: State, added: TaskId, t: State, id: TaskId)
    requires KeepsTask(Admit(s, added), t, id)
    ensures KeepsTask(s, t, id)
  {
  }

  lemma SubmitKeepsTask(s: State, step: Step, id: TaskId)
    requires Valid(s) && step.DoSubmit?
    ensures KeepsTask(s, Next(s, step), id)
  {
    if !Known(s, step.id) && Submit(s, step.id, step.aborted, step.valid, step.spawns).1.None? {
      AppendKeeps(s, step.id);
      DrainKeepsTask(Admit(s, step.id), step.spawns, id);
      AdmitKeepsTask(s, step.id, Drain(Admit(s, step.id), step.spawns), id);
    }
  }

  lemma ClosedKeepsTask(s: State, step: Step, id: TaskId)
    requires Valid(s) && step.DoChildClosed?
    ensures KeepsTask(s, Next(s, step), id)
  {
    if step.id in s.active {
      RemoveSize(s.active, step.id);
      var t := s.(active := s.active - {step.id});
      SettleKeeps(t, step.id, Verdict(s, step.id, step.exit));
      DrainKeepsTask(Settle(t, step.id, Verdict(s, step.id, step.exit)), step.spawns, id);
    }
  }

  lemma StepKeepsTask(s: State, step: Step, id: TaskId)
    requires Valid(s)
    ensures KeepsTask(s, Next(s, step), id)
  {
    if step.DoSubmit? {
      SubmitKeepsTask(s, step, id);
    } else if step.DoChildClosed? {
      ClosedKeepsTask(s, step, id);
    } else if step.DoShutdown? {
      RejectAllKeepsTask(s.(closing := true), id);
    } else if step.DoReject? {
      if step.id in s.pending {
        WithoutExact(s.pending, step.id);
      }
    }
  }

  /** A promise settles once and keeps its outcome; no admitted task is ever lost. */
  lemma {:induction false} SettlesOnce(s: State, steps: seq<Step>, id: TaskId)
    requires Valid(s)
    ensures KeepsTask(s, Run(s, steps), id)
    decreases |steps|
  {
    if steps != [] {
      var front := steps[..|steps| - 1];
      SettlesOnce(s, front, id);
      AlwaysAccounted(s, front);
      StepKeepsTask(Run(s, front), steps[|steps| - 1], id);
    }
  }

  lemma StepAfterShutdown(s: State, step: Step)
    requires Valid(s) && s.closing
    ensures var t := Next(s, step);
            && t.closing && t.pending == [] && t.started == s.started && t.admitted == s.admitted && t.completed == s.completed
  {
    assert s.pending == [];
    if step.DoShutdown? {
      assert RejectAll(s.(closing := true)) == s;
    }
  }

  /** After the shutdown nothing waits, nothing is admitted and no child starts; running children end
      aborted, and when they have closed every admitted task is settled. */
  lemma {:induction false} NothingAfterShutdown(s: State, steps: seq<Step>)
    requires Valid(s) && s.closing
    ensures var t := Run(s, steps);
            && t.closing && t.pending == [] && t.started == s.started && t.admitted == s.admitted
            && t.completed == s.completed
            && (t.active == map[] ==> t.admitted == t.completed + t.failed)
    decreases |steps|
  {
    AlwaysAccounted(s, steps);
    if steps != [] {
      var front := steps[..|steps| - 1];
      NothingAfterShutdown(s, front);
      AlwaysAccounted(s, front);
      StepAfterShutdown(Run(s, front), steps[|steps| - 1]);
    }
  }
}
