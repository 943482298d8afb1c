/**
 Every history of one device's playback: commands and their retries, content assignments, due events
 claimed, retried and taken over by any worker, and whatever other services do to the device.
 */
module PlaybackRuns {
  import opened Base
  import opened Playback
  import opened PlaybackDriver

  /** What the outbox does to a due event. A worker acknowledges only after its handler returned. */
  datatype OutboxChange = Claimed(token: Token) | Retried | Buried | Acknowledged(token: Token)

  datatype Step =
    | DoSubmit(key: string, request: Request, now: int)
    | DoAssign(assignment: Assignment, expectedDesired: Option<string>, expectedVersion: nat, now: int, startAt: int)
    | DoDue(event: nat, token: Token, now: int, leased: bool, stillLeased: bool)
    | DoOutbox(event: nat, change: OutboxChange)
    | SetActive(active: bool)
    | PublishList(list: ListId, entries: seq<Entry>)
    | PublishRevision(revision: string)
    | Repoint(pointer: Option<Pointer>, presentation: nat)

  const START := Desk(World(true, map[], {}, 0, None, None, [], {}), map[])

  function NextStatus(w: World, event: nat, change: OutboxChange): DueStatus
    requires event < |w.dues|
  {
    var status := w.dues[event].status;
    match change
    case Claimed(token) => if status.Pending? || status.Processing? then Processing(token) else status
    case Retried => if status.Processing? then DueStatus.Pending else status
    case Buried => if status.Processing? then DueStatus.DeadLetter else status
    case Acknowledged(token) =>
      if Fenced(w, event, token) && w.dues[event].version in w.effects then DueStatus.Delivered else status
  }

  /** What a step does to the tables; a failed transaction does nothing. */
  function NextWorld(w: World, step: Step): World
    requires !step.DoSubmit?
  {
    match step
    case DoAssign(assignment, expectedDesired, expectedVersion, now, startAt) =>
      var r := Assign(w, assignment, expectedDesired, expectedVersion, now, startAt);
      if r.Ok? then r.value else w
    case DoDue(event, token, now, leased, stillLeased) =>
      var r := AdvanceDue(w, event, token, now, leased, stillLeased);
      if r.Ok? then r.value else w
    case SetActive(active) => w.(active := active)
    case PublishList(list, entries) => if list in w.lists then w else w.(lists := w.lists[list := entries])
    case PublishRevision(revision) => w.(revisions := w.revisions + {revision})
    case Repoint(pointer, presentation) => w.(pointer := pointer, presentation := presentation)
    case DoOutbox(event, change) =>
      if event >= |w.dues| then w
      else w.(dues := w.dues[event := w.dues[event].(status := NextStatus(w, event, change))])
  }

  function Next(d: Desk, step: Step): Desk {
    if step.DoSubmit? then Submit(d, step.key, step.request, step.now).0
    else d.(world := NextWorld(d.world, step))
  }

  function Run(steps: seq<Step>): Desk {
    if steps == [] then START else Next(Run(steps[..|steps| - 1]), steps[|steps| - 1])
  }

  // ---- The invariant over runs ----

  lemma StatusKeeps(w: World, event: nat, change: OutboxChange)
    requires Invariant(w) && event < |w.dues|
    ensures Invariant(NextWorld(w, DoOutbox(event, change)))
  {
    var u := NextWorld(w, DoOutbox(event, change));
    assert forall i :: 0 <= i < |w.dues| ==> u.dues[i].version == w.dues[i].version && u.dues[i].dueAt == w.dues[i].dueAt;
  }

  lemma PlayKeeps(w: World, u: World)
    requires Invariant(w)
    requires u.play == w.play && u.dues == w.dues && u.effects == w.effects
    requires forall list :: list in w.lists ==> list in u.lists && u.lists[list] == w.lists[list]
    ensures Invariant(u)
  {
    SameSchedule(w, u);
  }

  lemma WorldKeeps(w: World, step: Step)
    requires Invariant(w) && !step.DoSubmit?
    ensures Invariant(NextWorld(w, step))
  {
    match step
    case DoAssign(assignment, expectedDesired, expectedVersion, now, startAt) =>
      AssignNeverConflictsWithItself(w, assignment, expectedDesired, expectedVersion, now, startAt);
    case DoDue(event, token, now, leased, stillLeased) =>
      if AdvanceDue(w, event, token, now, leased, stillLeased).Ok? {
        AdvanceKeeps(w, event, token, now, leased, stillLeased);
      }
    case SetActive(_) => PlayKeeps(w, NextWorld(w, step));
    case PublishList(_, _) => PlayKeeps(w, NextWorld(w, step));
    case PublishRevision(_) => PlayKeeps(w, NextWorld(w, step));
    case Repoint(_, _) => PlayKeeps(w, NextWorld(w, step));
    case DoOutbox(event, change) =>
      if event < |w.dues| {
        StatusKeeps(w, event, change);
      }
  }

  lemma NextKeeps(d: Desk, step: Step)
    requires Invariant(d.world)
    ensures Invariant(Next(d, step).world)
  {
    if step.DoSubmit? {
      if Execute(d.world, step.request, step.now).Ok? {
        ExecuteKeeps(d.world, step.request, step.now);
      }
    } else {
      WorldKeeps(d.world, step);
    }
  }

  lemma {:induction false} RunKeeps(steps: seq<Step>)
    ensures Invariant(Run(steps).world)
    decreases |steps|
  {
    if steps != [] {
      RunKeeps(steps[..|steps| - 1]);
      NextKeeps(Run(steps[..|steps| - 1]), steps[|steps| - 1]);
    }
  }

  // ---- Versions ----

  lemma EvolveVersion(w: World, request: Request, list: ListId, was: seq<Entry>, entries: seq<Entry>, now: int)
    requires Evolve(w, request, list, was, entries, now).Ok?
    ensures var u := Evolve(w, request, list, was, entries, now).value;
            Version(u) == Version(w) + if u.play == w.play then 0 else 1
  {
    var next := Transition(AnchorOf(w), was, request.action, now, entries).value;
    if !NoChange(w, request, list, next, now) {
      PersistEffect(w, list, next, entries, request.action);
    }
  }

  /** One command moves the row by exactly one version, or not at all. */
  lemma ExecuteVersion(w: World, request: Request, now: int)
    requires Execute(w, request, now).Ok?
    ensures var u := Execute(w, request, now).value;
            Version(u) == Version(w) + if u.play == w.play then 0 else 1
  {
    var was := if w.play.Some? then w.lists[w.play.value.list] else [];
    var list := if request.list.Some? then request.list.value else w.play.value.list;
    var entries := if request.list.Some? then w.lists[list] else was;
    EvolveVersion(w, request, list, was, entries, now);
  }

  lemma AssignVersion(w: World, step: Step)
    requires step.DoAssign? && Invariant(w)
    ensures var u := NextWorld(w, step);
            && (u.play == w.play ==> Version(u) == Version(w))
            && (u.play != w.play ==> Version(w) < Version(u) <= Version(w) + 2)
  {
    var stop := Request(Stop, None, Version(w), Sequence(w));
    if Assign(w, step.assignment, step.expectedDesired, step.expectedVersion, step.now, step.startAt).Ok? && !AlreadyAssigned(w, step.assignment) {
      var u := w;
      if Active(w) {
        StopMovesOn(w, step.now);
        u := Execute(w, stop, step.now).value;
      }
      if step.assignment.List? {
        ExecuteVersion(u, Request(Start, Some(step.assignment.list), Version(u), Sequence(u)), step.startAt);
      }
    }
  }

  /** The row changes only together with its version; due events and commands move it by exactly one. */
  lemma VersionStep(d: Desk, step: Step)
    requires Invariant(d.world)
    ensures var w, u := d.world, Next(d, step).world;
            && (u.play == w.play ==> Version(u) == Version(w))
            && (u.play != w.play ==> Version(w) < Version(u) <= Version(w) + 2)
            && (u.play != w.play && !step.DoAssign? ==> Version(u) == Version(w) + 1)
  {
    match step
    case DoSubmit(_, request, now) =>
      if Execute(d.world, request, now).Ok? {
        ExecuteVersion(d.world, request, now);
      }
    case DoAssign(_, _, _, _, _) => AssignVersion(d.world, step);
    case DoDue(event, token, now, leased, stillLeased) =>
      if AdvanceDue(d.world, event, token, now, leased, stillLeased).Ok? {
        AdvanceChanges(d.world, event, token, now, leased, stillLeased);
      }
    case _ =>
  }

  /** Persisted changes: an assignment that stops and starts counts twice. */
  function Changes(steps: seq<Step>): nat {
    if steps == [] then 0
    else
      var before, step := Run(steps[..|steps| - 1]), steps[|steps| - 1];
      Changes(steps[..|steps| - 1]) + StepChanges(before, step)
  }

  function StepChanges(d: Desk, step: Step): nat {
    if Next(d, step).world.play == d.world.play then 0
    else if step.DoAssign? && Active(d.world) && StopsAndStarts(d.world, step) then 2
    else 1
  }

  /** Both halves of the assignment persisted something. */
  predicate StopsAndStarts(w: World, step: Step)
    requires step.DoAssign?
  {
    var stopped := Execute(w, Request(Stop, None, Version(w), Sequence(w)), step.now);
    stopped.Ok? && stopped.value.play != NextWorld(w, step).play
  }

  lemma ChangesStep(d: Desk, step: Step)
    requires Invariant(d.world)
    ensures Version(Next(d, step).world) == Version(d.world) + StepChanges(d, step)
  {
    VersionStep(d, step);
    if step.DoAssign? && Next(d, step).world.play != d.world.play {
      AssignChanges(d.world, step);
    }
  }

  lemma AssignChanges(w: World, step: Step)
    requires Invariant(w) && step.DoAssign? && NextWorld(w, step).play != w.play
    ensures Version(NextWorld(w, step)) == Version(w) + if Active(w) && StopsAndStarts(w, step) then 2 else 1
  {
    var u := w;
    if Active(w) {
      StopMovesOn(w, step.now);
      u := Execute(w, Request(Stop, None, Version(w), Sequence(w)), step.now).value;
    }
    if step.assignment.List? {
      ExecuteVersion(u, Request(Start, Some(step.assignment.list), Version(u), Sequence(u)), step.startAt);
    }
  }

  /** The stored version is the number of changes ever persisted. */
  lemma {:induction false} VersionCountsChanges(steps: seq<Step>)
    ensures Version(Run(steps).world) == Changes(steps)
    decreases |steps|
  {
    if steps != [] {
      var front := steps[..|steps| - 1];
      VersionCountsChanges(front);
      RunKeeps(front);
      ChangesStep(Run(front), steps[|steps| - 1]);
    }
  }

  lemma {:induction false} VersionsGrow(steps: seq<Step>, earlier: nat)
    requires earlier <= |steps|
    ensures Version(Run(steps[..earlier]).world) <= Version(Run(steps).world)
    decreases |steps|
  {
    if earlier == |steps| {
      assert steps[..earlier] == steps;
    } else {
      var front := steps[..|steps| - 1];
      VersionsGrow(front, earlier);
      RunKeeps(front);
      VersionStep(Run(front), steps[|steps| - 1]);
      assert front[..earlier] == steps[..earlier];
    }
  }

  // ---- Due events ----

  /** Step i is a delivery of the due event of this version, and it changes the row. */
  predicate Moves(steps: seq<Step>, i: nat, version: nat)
    requires i < |steps|
  {
    var before := Run(steps[..i]);
    && steps[i].DoDue? && steps[i].event < |before.world.dues| && before.world.dues[steps[i].event].version == version
    && Next(before, steps[i]).world.play != before.world.play
  }

  /** Retries and takeovers included, a due event changes the row at most once, from exactly its own
      version, and not before it is due. */
  lemma DueAppliesOnce(steps: seq<Step>, i: nat, j: nat, version: nat)
    requires i < |steps| && j < |steps| && Moves(steps, i, version) && Moves(steps, j, version)
    ensures i == j
    ensures var before := Run(steps[..i]).world;
            && Version(before) == version && Version(Run(steps[..i + 1]).world) == version + 1
            && before.play.Some? && before.play.value.nextTransitionAt == Some(before.dues[steps[i].event].dueAt)
            && before.dues[steps[i].event].dueAt <= steps[i].now
  {
    MovesFromOwnVersion(steps, i, version);
    MovesFromOwnVersion(steps, j, version);
    if i < j {
      assert steps[..j][..i + 1] == steps[..i + 1];
      VersionsGrow(steps[..j], i + 1);
    } else if j < i {
      assert steps[..i][..j + 1] == steps[..j + 1];
      VersionsGrow(steps[..i], j + 1);
    }
  }

  lemma MovesFromOwnVersion(steps: seq<Step>, i: nat, version: nat)
    requires i < |steps| && Moves(steps, i, version)
    ensures var before := Run(steps[..i]).world;
            && Version(before) == version && Version(Run(steps[..i + 1]).world) == version + 1
            && Current(before, before.dues[steps[i].event])
            && before.dues[steps[i].event].dueAt <= steps[i].now
  {
    var before, step := Run(steps[..i]), steps[i];
    RunKeeps(steps[..i]);
    assert AdvanceDue(before.world, step.event, step.token, step.now, step.leased, step.stillLeased).Ok?;
    AdvanceChanges(before.world, step.event, step.token, step.now, step.leased, step.stillLeased);
    assert steps[..i + 1][..i] == steps[..i];
  }

  /** While a transition is scheduled exactly one event carries the current version, with that time;
      it is neither handled nor delivered, so a worker can still claim it unless it was buried. */
  lemma TransitionNeverLost(steps: seq<Step>)
    requires var w := Run(steps).world; w.play.Some? && w.play.value.nextTransitionAt.Some?
    ensures var w := Run(steps).world;
            exists i :: 0 <= i < |w.dues| && w.dues[i].version == Version(w)
              && w.dues[i].dueAt == w.play.value.nextTransitionAt.value
              && w.dues[i].status != Delivered && w.dues[i].version !in w.effects
              && forall j :: 0 <= j < |w.dues| && w.dues[j].version == Version(w) ==> j == i
  {
    RunKeeps(steps);
    var w := Run(steps).world;
    var last := |w.dues| - 1;
    forall j | 0 <= j < |w.dues| && w.dues[j].version == Version(w) ensures j == last {
      CurrentVersionMatches(w, j);
    }
    assert w.dues[last].version == Version(w);
  }

  // ---- Receipts ----

  lemma ReceiptStep(d: Desk, step: Step, key: string)
    requires key in d.receipts
    ensures key in Next(d, step).receipts && Next(d, step).receipts[key] == d.receipts[key]
  {
  }

  lemma {:induction false} ReceiptsStay(before: seq<Step>, after: seq<Step>, key: string)
    requires key in Run(before).receipts
    ensures key in Run(before + after).receipts && Run(before + after).receipts[key] == Run(before).receipts[key]
    decreases |after|
  {
    if after == [] {
      assert before + after == before;
    } else {
      var front := after[..|after| - 1];
      ReceiptsStay(before, front, key);
      assert (before + after)[..|before + after| - 1] == before + front;
      ReceiptStep(Run(before + front), after[|after| - 1], key);
    }
  }

  /** A command that succeeded once answers the same for ever, whatever the letter case of its key,
      and never runs again; the same key with another request is refused. */
  lemma CommandRunsOnce(before: seq<Step>, key: string, request: Request, now: int, after: seq<Step>,
                        again: string, other: Request, later: int)
    requires Submit(Run(before), key, request, now).1.Ok? && Uuid(again) && Lower(again) == Lower(key)
    requires Replaces(other.action) == other.list.Some?
    ensures var d := Run(before + [DoSubmit(key, request, now)] + after);
            Submit(d, again, other, later)
            == (d, if other == request then Submit(Run(before), key, request, now).1 else Err(KeyConflict))
  {
    var first := before + [DoSubmit(key, request, now)];
    assert first[..|first| - 1] == before;
    assert Lower(key) in Run(first).receipts;
    ReceiptsStay(first, after, Lower(key));
  }
}
