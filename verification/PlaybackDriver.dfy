/**
 The durable driver of one device's playback (backend/src/playback/playback.service.ts): a versioned
 row, the due events that schedule its transitions, and the effects that record handled events.
 Each operation is a transaction: a function from the tables before it, or the error that undoes it.
 */
module PlaybackDriver {
  import opened Base
  import opened Playback

  type ListId = string
  type Token = nat

  datatype Play = Play(version: nat, list: ListId, anchor: Anchor, item: Option<int>, nextTransitionAt: Option<int>)

  datatype DueStatus = Pending | Processing(token: Token) | Delivered | DeadLetter

  datatype Due = Due(version: nat, dueAt: int, status: DueStatus)

  datatype Pointer = Pointer(desired: Option<string>, sequence: nat)

  /** Published lists never change. Revisions are the publications whose artifacts are complete. */
  datatype World = World(
    active: bool,
    lists: map<ListId, seq<Entry>>,
    revisions: set<string>,
    presentation: nat,
    pointer: Option<Pointer>,
    play: Option<Play>,
    dues: seq<Due>,
    effects: set<nat>)

  datatype Failure =
    | BadRequest | NoDevice | SequenceConflict | NotStartedYet | NoList | BrokenList | BadTransition
    | NoPosition | NoRevision | ClaimExpired | NotDue | KeyConflict | AssignmentConflict | PlaybackActive

  datatype Request = Request(action: Action, list: Option<ListId>, expectedVersion: nat, expectedSequence: nat)

  datatype Summary = Summary(
    version: nat, list: ListId, status: Status, item: Option<int>, nextTransitionAt: Option<int>, sequence: nat)

  function Version(w: World): nat {
    if w.play.None? then 0 else w.play.value.version
  }

  function Sequence(w: World): nat {
    if w.pointer.None? then w.presentation else w.pointer.value.sequence
  }

  function Summarize(play: Play, sequence: nat): Summary {
    Summary(play.version, play.list, play.anchor.status, play.item, play.nextTransitionAt, sequence)
  }

  /** entries: a published list that is missing or fails its own validation is an error. */
  function Entries(w: World, list: ListId): Result<seq<Entry>, Failure> {
    if list !in w.lists then Err(NoList)
    else if !ValidEntries(w.lists[list]) then Err(BrokenList)
    else Ok(w.lists[list])
  }

  // ---- persist ----

  /** setDesiredRevision: switching counts, repeating does not. */
  function SetDesired(w: World, revision: string): Result<World, Failure> {
    if w.pointer.Some? && w.pointer.value.desired == Some(revision) then Ok(w)
    else if revision !in w.revisions then Err(NoRevision)
    else Ok(w.(presentation := w.presentation + 1, pointer := Some(Pointer(Some(revision), w.presentation + 1))))
  }

  /** Pending schedules of earlier versions end; running ones are fenced by their version. */
  function Superseded(dues: seq<Due>): (after: seq<Due>)
    ensures |after| == |dues|
    ensures forall i :: 0 <= i < |dues| ==>
              after[i] == if dues[i].status.Pending? then dues[i].(status := Delivered) else dues[i]
  {
    seq(|dues|, i requires 0 <= i < |dues| => if dues[i].status.Pending? then dues[i].(status := Delivered) else dues[i])
  }

  predicate Published(w: World, entries: seq<Entry>) {
    forall i :: 0 <= i < |entries| ==> entries[i].publicationRevisionId in w.revisions
  }

  predicate Showing(next: Anchor, action: Action, current: Position) {
    current.publicationRevisionId.Some? && action != Stop && next.status != Stopped
  }

  function Stored(w: World, list: ListId, next: Anchor, current: Position): World {
    var version := Version(w) + 1;
    var due := if current.nextTransitionAt.Some? then [Due(version, current.nextTransitionAt.value, Pending)] else [];
    w.(play := Some(Play(version, list, next, current.itemId, current.nextTransitionAt)),
       dues := Superseded(w.dues) + due)
  }

  function Persist(w: World, list: ListId, next: Anchor, entries: seq<Entry>, action: Action): Result<World, Failure> {
    var current := PositionAt(next, entries, next.evaluatedAt);
    if current.Err? then Err(NoPosition)
    else if (next.status == Running || next.status == Paused) && !Published(w, entries) then Err(NoRevision)
    else
      var stored := Stored(w, list, next, current.value);
      if Showing(next, action, current.value) then SetDesired(stored, current.value.publicationRevisionId.value)
      else Ok(stored)
  }

  // ---- executeInTransaction ----

  predicate Replaces(action: Action) {
    action == Start || action == Change
  }

  /** A command that leaves everything as it is: restarting early, or changing nothing. */
  predicate NoChange(w: World, request: Request, list: ListId, next: Anchor, now: int) {
    && w.play.Some?
    && var play := w.play.value;
       || (request.action == Restart && !(play.nextTransitionAt.Some? && now >= play.nextTransitionAt.value))
       || (list == play.list && next == play.anchor)
  }

  function Execute(w: World, request: Request, now: int): Result<World, Failure> {
    if Replaces(request.action) != request.list.Some? then Err(BadRequest)
    else if !w.active then Err(NoDevice)
    else if Version(w) != request.expectedVersion || Sequence(w) != request.expectedSequence then Err(SequenceConflict)
    else
      var was := if w.play.Some? then Entries(w, w.play.value.list) else Ok([]);
      if was.Err? then Err(was.error)
      else if w.play.None? && request.list.None? then Err(NotStartedYet)
      else
        var list := if request.list.Some? then request.list.value else w.play.value.list;
        var entries := if request.list.Some? then Entries(w, list) else was;
        if entries.Err? then Err(entries.error)
        else Evolve(w, request, list, was.value, entries.value, now)
  }

  function AnchorOf(w: World): Option<Anchor> {
    if w.play.Some? then Some(w.play.value.anchor) else None
  }

  function Evolve(w: World, request: Request, list: ListId, was: seq<Entry>, entries: seq<Entry>, now: int): Result<World, Failure> {
    match Transition(AnchorOf(w), was, request.action, now, entries)
    case Err(_) => Err(BadTransition)
    case Ok(next) => if NoChange(w, request, list, next, now) then Ok(w) else Persist(w, list, next, entries, request.action)
  }

  // ---- advanceDue ----

  predicate Fenced(w: World, event: nat, token: Token) {
    event < |w.dues| && w.dues[event].status == Processing(token)
  }

  /** The row is still the one this event was scheduled for. */
  predicate Current(w: World, due: Due) {
    && w.play.Some? && w.play.value.version == due.version
    && w.play.value.anchor.status == Running && w.play.value.nextTransitionAt == Some(due.dueAt)
  }

  function Applied(w: World, due: Due, now: int): Result<World, Failure>
    requires Current(w, due)
  {
    var play := w.play.value;
    var action := if w.active then Restart else Stop;
    if now < due.dueAt then Err(NotDue)
    else
      var entries := Entries(w, play.list);
      if entries.Err? then Err(entries.error)
      else
        var next := Transition(Some(play.anchor), entries.value, action, now, []);
        if next.Err? then Err(BadTransition) else Persist(w, play.list, next.value, entries.value, action)
  }

  /** The claim's lease is compared with the wall clock at the start and before the commit. */
  function AdvanceDue(w: World, event: nat, token: Token, now: int, leased: bool, stillLeased: bool): Result<World, Failure> {
    if !Fenced(w, event, token) || !leased then Err(ClaimExpired)
    else
      var due := w.dues[event];
      if due.version in w.effects then Ok(w)
      else
        var after := if Current(w, due) then Applied(w, due, now) else Ok(w);
        if after.Err? then after
        else if !stillLeased then Err(ClaimExpired)
        else Ok(after.value.(effects := after.value.effects + {due.version}))
  }

  // ---- What a version means ----

  ghost predicate PlayOk(w: World) {
    w.play.Some? ==>
      var play := w.play.value;
      && play.version >= 1 && play.list in w.lists
      && Consistent(Session(Some(play.anchor), w.lists[play.list]))
      && var current := PositionAt(play.anchor, w.lists[play.list], play.anchor.evaluatedAt);
         current.Ok? && play.nextTransitionAt == current.value.nextTransitionAt && play.item == current.value.itemId
  }

  predicate DuesOk(w: World) {
    && (forall i :: 0 <= i < |w.dues| ==> 1 <= w.dues[i].version <= Version(w))
    && (forall i, j :: 0 <= i < j < |w.dues| ==> w.dues[i].version < w.dues[j].version)
    && (forall v :: v in w.effects ==> v <= Version(w))
  }

  /** The scheduled transition of the current version: its event is waiting, in work or buried. */
  predicate ScheduleOk(w: World) {
    if w.play.Some? && w.play.value.nextTransitionAt.Some? then
      && |w.dues| > 0
      && var last := w.dues[|w.dues| - 1];
         && last.version == Version(w) && last.dueAt == w.play.value.nextTransitionAt.value
         && last.status != Delivered && last.version !in w.effects
    else forall i :: 0 <= i < |w.dues| ==> w.dues[i].version < Version(w)
  }

  ghost predicate Invariant(w: World) {
    PlayOk(w) && DuesOk(w) && ScheduleOk(w)
  }

  /** Everything else a transaction may touch. */
  predicate SamePublished(w: World, u: World) {
    u.active == w.active && u.lists == w.lists && u.revisions == w.revisions && u.effects == w.effects
  }

  lemma PersistEffect(w: World, list: ListId, next: Anchor, entries: seq<Entry>, action: Action)
    requires Persist(w, list, next, entries, action).Ok?
    ensures var u, current := Persist(w, list, next, entries, action).value, PositionAt(next, entries, next.evaluatedAt);
            && current.Ok? && SamePublished(w, u)
            && u.play == Stored(w, list, next, current.value).play && u.dues == Stored(w, list, next, current.value).dues
            && (if Showing(next, action, current.value)
                then u.pointer.Some? && u.pointer.value.desired == current.value.publicationRevisionId
                else u.pointer == w.pointer && u.presentation == w.presentation)
  {
  }

  lemma StoredKeepsDues(w: World, list: ListId, next: Anchor, current: Position)
    requires DuesOk(w)
    ensures DuesOk(Stored(w, list, next, current)) && ScheduleOk(Stored(w, list, next, current))
  {
    var u := Stored(w, list, next, current);
    forall i | 0 <= i < |w.dues| ensures u.dues[i].version == w.dues[i].version {
      assert u.dues[i] == Superseded(w.dues)[i];
    }
  }

  lemma PersistKeeps(w: World, list: ListId, next: Anchor, entries: seq<Entry>, action: Action)
    requires DuesOk(w) && list in w.lists && entries == w.lists[list]
    requires Consistent(Session(Some(next), entries)) && Persist(w, list, next, entries, action).Ok?
    ensures Invariant(Persist(w, list, next, entries, action).value)
  {
    PersistEffect(w, list, next, entries, action);
    var current := PositionAt(next, entries, next.evaluatedAt).value;
    StoredKeepsDues(w, list, next, current);
    SameSchedule(Stored(w, list, next, current), Persist(w, list, next, entries, action).value);
  }

  lemma SameSchedule(w: World, u: World)
    requires DuesOk(w) && ScheduleOk(w) && u.play == w.play && u.dues == w.dues && u.effects == w.effects
    ensures DuesOk(u) && ScheduleOk(u)
  {
  }

  /** Every accepted command stores a consistent anchor for its list. */
  lemma TransitionKeeps(anchor: Option<Anchor>, was: seq<Entry>, action: Action, now: int, entries: seq<Entry>)
    requires Consistent(Session(anchor, was))
    requires Replaces(action) || entries == was
    requires Transition(anchor, was, action, now, entries).Ok?
    ensures Consistent(Session(Some(Transition(anchor, was, action, now, entries).value), entries))
  {
    ApplyKeepsConsistent(Session(anchor, was), Command(action, now, entries));
  }

  lemma ExecuteKeeps(w: World, request: Request, now: int)
    requires Invariant(w) && Execute(w, request, now).Ok?
    ensures Invariant(Execute(w, request, now).value)
  {
    var was := if w.play.Some? then w.lists[w.play.value.list] else [];
    var list := if request.list.Some? then request.list.value else w.play.value.list;
    var entries := if request.list.Some? then w.lists[list] else was;
    var next := Transition(AnchorOf(w), was, request.action, now, entries).value;
    assert Execute(w, request, now) == Evolve(w, request, list, was, entries, now);
    if !NoChange(w, request, list, next, now) {
      TransitionKeeps(AnchorOf(w), was, request.action, now, entries);
      PersistKeeps(w, list, next, entries, request.action);
    }
  }

  /** Restarting and stopping ignore the replacement list. */
  lemma NoReplacement(anchor: Anchor, entries: seq<Entry>, action: Action, now: int)
    requires action == Restart || action == Stop
    requires ValidEntries(entries)
    ensures Transition(Some(anchor), entries, action, now, []) == Transition(Some(anchor), entries, action, now, entries)
  {
  }

  lemma AppliedKeeps(w: World, due: Due, now: int)
    requires Invariant(w) && Current(w, due) && Applied(w, due, now).Ok?
    ensures Invariant(Applied(w, due, now).value)
    ensures Version(Applied(w, due, now).value) == Version(w) + 1
    ensures SamePublished(w, Applied(w, due, now).value)
  {
    var play := w.play.value;
    var action := if w.active then Restart else Stop;
    var entries := w.lists[play.list];
    var next := Transition(Some(play.anchor), entries, action, now, []).value;
    NoReplacement(play.anchor, entries, action, now);
    TransitionKeeps(Some(play.anchor), entries, action, now, entries);
    PersistKeeps(w, play.list, next, entries, action);
    PersistEffect(w, play.list, next, entries, action);
  }

  /** An event of the current version always finds its row unchanged. */
  lemma CurrentVersionMatches(w: World, event: nat)
    requires Invariant(w) && event < |w.dues| && w.dues[event].version == Version(w)
    ensures Current(w, w.dues[event]) && event == |w.dues| - 1
  {
    var last := |w.dues| - 1;
    assert w.dues[last].version <= Version(w);
  }

  lemma EffectKeeps(w: World, version: nat)
    requires Invariant(w) && version < Version(w)
    ensures Invariant(w.(effects := w.effects + {version}))
  {
  }

  lemma AdvanceKeeps(w: World, event: nat, token: Token, now: int, leased: bool, stillLeased: bool)
    requires Invariant(w) && AdvanceDue(w, event, token, now, leased, stillLeased).Ok?
    ensures Invariant(AdvanceDue(w, event, token, now, leased, stillLeased).value)
  {
    var due := w.dues[event];
    if due.version == Version(w) {
      CurrentVersionMatches(w, event);
    }
    if due.version !in w.effects {
      if Current(w, due) {
        AppliedKeeps(w, due, now);
        EffectKeeps(Applied(w, due, now).value, due.version);
      } else {
        EffectKeeps(w, due.version);
      }
    }
  }

  /** The event changes the row exactly when its version is the current one and nobody handled it. */
  lemma AdvanceChanges(w: World, event: nat, token: Token, now: int, leased: bool, stillLeased: bool)
    requires Invariant(w) && AdvanceDue(w, event, token, now, leased, stillLeased).Ok?
    ensures var u, due := AdvanceDue(w, event, token, now, leased, stillLeased).value, w.dues[event];
            && (u.play != w.play <==> due.version == Version(w))
            && (u.play != w.play ==> Version(u) == Version(w) + 1 && Current(w, due) && due.dueAt <= now)
            && due.version in u.effects
  {
    var due := w.dues[event];
    if due.version == Version(w) {
      CurrentVersionMatches(w, event);
    }
    if due.version !in w.effects && Current(w, due) {
      AppliedKeeps(w, due, now);
    }
  }

  /** A handled transition shows what the plain rotation shows at that time, leaves every later
      position as it was, and schedules the next one later than the one it handled. */
  lemma DueFollowsRotation(w: World, event: nat, token: Token, now: int, later: int)
    requires Invariant(w) && w.active && event < |w.dues| && w.dues[event].version == Version(w)
    requires AdvanceDue(w, event, token, now, true, true).Ok? && w.dues[event].version !in w.effects
    requires Fenced(w, event, token)
    ensures var u := AdvanceDue(w, event, token, now, true, true).value;
            var before, after := w.play.value, u.play.value;
            var entries := w.lists[before.list];
            var at := EvaluationTime(now, Some(before.anchor));
            && after.list == before.list && PositionAt(before.anchor, entries, now).Ok?
            && u.pointer.Some?
            && u.pointer.value.desired == PositionAt(before.anchor, entries, now).value.publicationRevisionId
            && after.nextTransitionAt == PositionAt(before.anchor, entries, now).value.nextTransitionAt
            && (after.nextTransitionAt.Some? ==> after.nextTransitionAt.value > now >= w.dues[event].dueAt)
            && (at <= later ==> PositionAt(after.anchor, entries, later) == PositionAt(before.anchor, entries, later))
  {
    CurrentVersionMatches(w, event);
    var before := w.play.value;
    var entries := w.lists[before.list];
    var next := Transition(Some(before.anchor), entries, Restart, now, []).value;
    PersistEffect(w, before.list, next, entries, Restart);
    assert PositionAt(next, entries, next.evaluatedAt) == PositionAt(before.anchor, entries, now);
    if PositionAt(before.anchor, entries, now).value.nextTransitionAt.Some? {
      NextIsLater(before.anchor, entries, now);
    }
  }

  lemma NextIsLater(state: Anchor, entries: seq<Entry>, now: int)
    requires WellTimed(state) && PositionAt(state, entries, now).Ok?
    requires PositionAt(state, entries, now).value.nextTransitionAt.Some?
    ensures PositionAt(state, entries, now).value.nextTransitionAt.value > EvaluationTime(now, Some(state))
  {
    var at := EvaluationTime(now, Some(state));
    var p := PlaceAt(state, entries, at);
    RotateEndsInside(DurationsOf(entries), state.anchorIndex, ElapsedAt(state, at));
  }

  lemma {:induction false} RotateEndsInside(durations: Durations, index: int, elapsed: int)
    requires Rotatable(durations) && 0 <= index < |durations| && 0 <= elapsed
    ensures var p := Rotate(durations, index, elapsed);
            durations[p.index].Some? ==> p.elapsed < durations[p.index].value
    decreases elapsed
  {
    if durations[index].Some? && elapsed >= durations[index].value {
      RotateEndsInside(durations, Next(index, |durations|), elapsed - durations[index].value);
    }
  }

  // ---- Receipts ----

  datatype Receipt = Receipt(request: Request, result: Summary)

  datatype Desk = Desk(world: World, receipts: map<string, Receipt>)

  function LowerChar(c: char): char {
    if 'A' <= c <= 'Z' then c + ('a' - 'A') else c
  }

  function Lower(s: string): (r: string)
    ensures |r| == |s|
  {
    seq(|s|, i requires 0 <= i < |s| => LowerChar(s[i]))
  }

  predicate Hex(c: char) {
    '0' <= c <= '9' || 'a' <= LowerChar(c) <= 'f'
  }

  predicate Uuid(key: string) {
    |key| == 36 && forall i :: 0 <= i < 36 ==> if i in {8, 13, 18, 23} then key[i] == '-' else Hex(key[i])
  }

  /** The receipt and the change commit together; a stored receipt answers for good. */
  function Submit(d: Desk, key: string, request: Request, now: int): (Desk, Result<Summary, Failure>) {
    if Replaces(request.action) != request.list.Some? || !Uuid(key) then (d, Err(BadRequest))
    else if Lower(key) in d.receipts then
      var receipt := d.receipts[Lower(key)];
      (d, if receipt.request == request then Ok(receipt.result) else Err(KeyConflict))
    else
      match Execute(d.world, request, now)
      case Err(e) => (d, Err(e))
      case Ok(u) =>
        if u.play.None? then (d, Err(NotStartedYet))
        else
          var result := Summarize(u.play.value, Sequence(u));
          (Desk(u, d.receipts[Lower(key) := Receipt(request, result)]), Ok(result))
  }

  /** A successful command leaves a row to report. */
  lemma ExecuteHasPlay(w: World, request: Request, now: int)
    requires Execute(w, request, now).Ok?
    ensures Execute(w, request, now).value.play.Some?
  {
  }

  // ---- assign ----

  datatype Assignment = NoContent | Screen(revision: string) | List(list: ListId)

  predicate Active(w: World) {
    w.play.Some? && (w.play.value.anchor.status == Running || w.play.value.anchor.status == Paused)
  }

  function Desired(w: World): Option<string> {
    if w.pointer.Some? then w.pointer.value.desired else None
  }

  predicate AlreadyAssigned(w: World, assignment: Assignment) {
    match assignment
    case NoContent => Desired(w).None? && !Active(w)
    case Screen(revision) => !Active(w) && Desired(w) == Some(revision)
    case List(list) => Active(w) && w.play.value.list == list
  }

  /** clearDesiredRevision, when the pointer shows something. */
  function ClearDesired(w: World): World {
    if w.pointer.None? || w.pointer.value.desired.None? then w
    else w.(presentation := w.presentation + 1, pointer := Some(Pointer(None, w.presentation + 1)))
  }

  /** Stop what plays, then show the new content, in one transaction. */
  function Assign(w: World, assignment: Assignment, expectedDesired: Option<string>, expectedVersion: nat, now: int, startAt: int)
    : Result<World, Failure>
  {
    if !w.active then Err(NoDevice)
    else if AlreadyAssigned(w, assignment) then Ok(w)
    else if Desired(w) != expectedDesired || Version(w) != expectedVersion then Err(AssignmentConflict)
    else
      var stopped := if Active(w) then Execute(w, Request(Stop, None, Version(w), Sequence(w)), now) else Ok(w);
      if stopped.Err? then stopped
      else
        // Both expectations are the ones read before the stop.
        Show(stopped.value, assignment, if Active(w) then Version(w) + 1 else Version(w), Sequence(w), startAt)
  }

  function Show(w: World, assignment: Assignment, version: nat, sequence: nat, startAt: int): Result<World, Failure> {
    match assignment
    case NoContent => Ok(ClearDesired(w))
    case Screen(revision) =>
      if revision !in w.revisions then Err(NoRevision)
      else if Active(w) then Err(PlaybackActive)
      else SetDesired(w, revision)
    case List(list) =>
      if list !in w.lists then Err(NoList) else Execute(w, Request(Start, Some(list), version, sequence), startAt)
  }

  /** Stopping an active row always moves it one version on and never touches the pointer. */
  lemma StopMovesOn(w: World, now: int)
    requires Invariant(w) && Active(w)
    requires Execute(w, Request(Stop, None, Version(w), Sequence(w)), now).Ok?
    ensures var u := Execute(w, Request(Stop, None, Version(w), Sequence(w)), now).value;
            && Version(u) == Version(w) + 1 && Sequence(u) == Sequence(w) && u.pointer == w.pointer
            && u.active == w.active && u.lists == w.lists && u.revisions == w.revisions
            && u.play.Some? && u.play.value.anchor.status == Stopped
  {
    var was := w.lists[w.play.value.list];
    var next := Transition(AnchorOf(w), was, Stop, now, was).value;
    assert next.status == Stopped;
    PersistEffect(w, w.play.value.list, next, was, Stop);
  }

  /** The world the second half of an assignment starts from. */
  lemma AfterStop(w: World, now: int)
    requires Invariant(w) && Active(w)
    ensures var r := Execute(w, Request(Stop, None, Version(w), Sequence(w)), now);
            && r != Err(SequenceConflict) && r != Err(PlaybackActive)
            && (r.Ok? ==> Invariant(r.value) && Version(r.value) == Version(w) + 1
                          && Sequence(r.value) == Sequence(w) && !Active(r.value) && r.value.lists == w.lists)
  {
    var request := Request(Stop, None, Version(w), Sequence(w));
    if Execute(w, request, now).Ok? {
      StopMovesOn(w, now);
      ExecuteKeeps(w, request, now);
    }
  }

  lemma StartResult(w: World, list: ListId, now: int)
    requires PlayOk(w)
    ensures var r := Execute(w, Request(Start, Some(list), Version(w), Sequence(w)), now);
            && r != Err(SequenceConflict) && r != Err(PlaybackActive)
            && (r.Ok? ==> r.value.play.Some? && r.value.play.value.list == list
                          && Version(w) <= Version(r.value) <= Version(w) + 1)
  {
  }

  lemma PointerKeeps(w: World, u: World)
    requires Invariant(w) && u == w.(presentation := u.presentation, pointer := u.pointer)
    ensures Invariant(u)
  {
    SameSchedule(w, u);
  }

  lemma ShowKeeps(w: World, assignment: Assignment, startAt: int)
    requires Invariant(w) && !Active(w)
    ensures var r := Show(w, assignment, Version(w), Sequence(w), startAt);
            && r != Err(SequenceConflict) && r != Err(PlaybackActive)
            && (r.Ok? ==> Invariant(r.value))
            && (r.Ok? && assignment.List? ==> r.value.play.Some? && r.value.play.value.list == assignment.list
                                              && Version(w) <= Version(r.value) <= Version(w) + 1)
  {
    match assignment
    case NoContent => PointerKeeps(w, ClearDesired(w));
    case Screen(revision) =>
      if SetDesired(w, revision).Ok? {
        PointerKeeps(w, SetDesired(w, revision).value);
      }
    case List(list) =>
      StartResult(w, list, startAt);
      var request := Request(Start, Some(list), Version(w), Sequence(w));
      if Execute(w, request, startAt).Ok? {
        ExecuteKeeps(w, request, startAt);
      }
  }

  /** The stop-then-start pair never fails its own version or sequence check, nor the guard that
      playback is stopped. */
  lemma AssignNeverConflictsWithItself(
      w: World, assignment: Assignment, expectedDesired: Option<string>, expectedVersion: nat, now: int, startAt: int)
    requires Invariant(w)
    ensures var r := Assign(w, assignment, expectedDesired, expectedVersion, now, startAt);
            && r != Err(SequenceConflict) && r != Err(PlaybackActive)
            && (r.Ok? ==> Invariant(r.value))
            && (r.Ok? && assignment.List? && !AlreadyAssigned(w, assignment) ==>
                  && r.value.play.Some? && r.value.play.value.list == assignment.list
                  && Version(w) + (if Active(w) then 1 else 0) <= Version(r.value) <= Version(w) + (if Active(w) then 2 else 1))
  {
    if Active(w) {
      AfterStop(w, now);
      var stopped := Execute(w, Request(Stop, None, Version(w), Sequence(w)), now);
      if stopped.Ok? {
        ShowKeeps(stopped.value, assignment, startAt);
      }
    } else {
      ShowKeeps(w, assignment, startAt);
    }
  }
}
