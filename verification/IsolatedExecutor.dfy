/** The executor's module state as an object, with the loops that fill free places and shut it down. */
module IsolatedExecutor {
  import opened Base
  import opened Executor

  class Queue {
    var closing: bool
    var pending: seq<TaskId>
    var active: map<TaskId, Option<Code>>
    var settled: map<TaskId, Outcome>
    var admitted: nat
    var started: nat
    var completed: nat
    var failed: nat
    var killed: nat

    ghost function Contents(): State
      reads this
    {
      State(closing, pending, active, settled, admitted, started, completed, failed, killed)
    }

    method SettleTask(id: TaskId, outcome: Outcome)
      modifies this`settled, this`completed, this`failed
      ensures Contents() == Settle(old(Contents()), id, outcome)
    {
      settled := settled[id := outcome];
      if outcome.Resolved? {
        completed := completed + 1;
      } else {
        failed := failed + 1;
      }
    }

    method StartTask(id: TaskId, spawns: Spawns)
      modifies this`active, this`settled, this`started, this`completed, this`failed
      ensures Contents() == Start(old(Contents()), id, spawns)
    {
      if closing {
        SettleTask(id, Rejected(Aborted));
        return;
      }
      var refused := spawns(id);
      if refused.Some? {
        SettleTask(id, Rejected(refused.value));
      } else {
        active, started := active[id := None], started + 1;
      }
    }

    /** while (!closing && active.size < 2 && pending.length) start(pending.shift()) */
    method DrainQueue(spawns: Spawns)
      modifies this`pending, this`active, this`settled, this`started, this`completed, this`failed
      ensures Contents() == Drain(old(Contents()), spawns)
    {
      ghost var before := Contents();
      while !closing && |active| < CONCURRENCY && pending != []
        invariant Drain(Contents(), spawns) == Drain(before, spawns)
        invariant closing == before.closing && admitted == before.admitted && killed == before.killed
        decreases |pending|
      {
        var task := pending[0];
        pending := pending[1..];
        StartTask(task, spawns);
      }
    }

    method SubmitTask(id: TaskId, aborted: bool, valid: bool, spawns: Spawns) returns (refused: Option<Code>)
      modifies this
      ensures (Contents(), refused) == Submit(old(Contents()), id, aborted, valid, spawns)
    {
      if closing || aborted {
        return Some(Aborted);
      }
      if |pending| >= PENDING {
        return Some(Busy);
      }
      if !valid {
        return Some(InvalidInput);
      }
      pending, admitted := pending + [id], admitted + 1;
      DrainQueue(spawns);
      return None;
    }

    /** indexOf and splice. */
    method RemovePending(id: TaskId) returns (removed: bool)
      modifies this`pending
      ensures removed <==> id in old(pending)
      ensures pending == if removed then Without(old(pending), id) else old(pending)
    {
      var i := 0;
      while i < |pending| && pending[i] != id
        invariant 0 <= i <= |pending| && id !in pending[..i]
      {
        i := i + 1;
      }
      if i == |pending| {
        assert pending[..i] == pending;
        return false;
      }
      SplitAtFirst(pending, id, i);
      pending := pending[..i] + pending[i + 1..];
      return true;
    }

    method RejectWaiting(id: TaskId, code: Code)
      modifies this`pending, this`settled, this`completed, this`failed
      ensures Contents() == RejectPending(old(Contents()), id, code)
    {
      var removed := RemovePending(id);
      if removed {
        SettleTask(id, Rejected(code));
      }
    }

    method StopTask(id: TaskId, code: Code)
      modifies this`active, this`killed
      ensures Contents() == Stop(old(Contents()), id, code)
    {
      if id !in active || active[id].Some? {
        return;
      }
      active, killed := active[id := Some(code)], killed + 1;
    }

    method OnChildClosed(id: TaskId, exit: Exit, spawns: Spawns)
      modifies this
      ensures Contents() == ChildClosed(old(Contents()), id, exit, spawns)
    {
      if id !in active {
        return;
      }
      var forced := active[id];
      active := active - {id};
      if forced.Some? {
        SettleTask(id, Rejected(forced.value));
      } else if exit.crashed {
        SettleTask(id, Rejected(Crash));
      } else if exit.aborted || closing {
        SettleTask(id, Rejected(Aborted));
      } else if exit.problem.Some? {
        SettleTask(id, Rejected(exit.problem.value));
      } else {
        SettleTask(id, Resolved);
      }
      DrainQueue(spawns);
    }

    /** Everything waiting is rejected, everything running is stopped. */
    method Close()
      requires Executor.Valid(Contents())
      modifies this
      ensures Contents() == Shutdown(old(Contents())) && Executor.Valid(Contents()) && pending == []
    {
      ShutdownKeeps(Contents());
      closing := true;
      RejectWaitingTasks();
      StopRunning();
    }

    method RejectWaitingTasks()
      modifies this`pending, this`settled, this`completed, this`failed
      ensures Contents() == RejectAll(old(Contents()))
    {
      ghost var before := Contents();
      while pending != []
        invariant RejectAll(Contents()) == RejectAll(before)
        decreases |pending|
      {
        var task := pending[0];
        pending := pending[1..];
        SettleTask(task, Rejected(Aborted));
      }
    }

    method StopRunning()
      modifies this`active, this`killed
      ensures Contents() == StopAll(old(Contents()))
    {
      var forced, stops := ForceAll(active);
      active, killed := forced, killed + stops;
    }

    static method ForceAll(running: map<TaskId, Option<Code>>) returns (forced: map<TaskId, Option<Code>>, stops: nat)
      ensures forced == Forced(running) && stops == |Unforced(running)|
    {
      var rest := Unforced(running);
      forced, stops := running, 0;
      while rest != {}
        invariant rest <= Unforced(running) && stops + |rest| == |Unforced(running)|
        invariant forced.Keys == running.Keys
        invariant forall id :: id in running ==>
                    forced[id] == if running[id].None? && id !in rest then Some(Aborted) else running[id]
        decreases |rest|
      {
        var id :| id in rest;
        forced, stops := forced[id := Some(Aborted)], stops + 1;
        rest := rest - {id};
      }
    }
  }

  lemma {:induction false} SplitAtFirst(tasks: seq<TaskId>, id: TaskId, i: nat)
    requires i < |tasks| && tasks[i] == id && id !in tasks[..i]
    ensures Without(tasks, id) == tasks[..i] + tasks[i + 1..]
    decreases i
  {
    if i > 0 {
      assert tasks[0] in tasks[..i];
      assert tasks[1..][..i - 1] == tasks[..i][1..];
      SplitAtFirst(tasks[1..], id, i - 1);
      assert tasks[1..][i..] == tasks[i + 1..];
      assert [tasks[0]] + tasks[..i][1..] == tasks[..i];
    }
  }
}
