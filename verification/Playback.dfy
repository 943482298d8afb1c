/**
 The playback machine of backend/src/playback/playback.machine.ts. Times are integer milliseconds.
 The reference semantics is the plain rotation: while the current entry is exhausted, subtract its
 duration and go to the next one. The source's jump over missed cycles is proved to agree with it.
 */
module Playback {
  import opened Base

  const MAX_TIME := 8_000_000_000_000_000
  const MAX_SAFE_INTEGER := 9_007_199_254_740_991
  const MAX_DURATION := 86_400_000

  datatype Entry = Entry(itemId: int, publicationRevisionId: string, durationMs: Option<int>)

  datatype Status = Empty | Running | Paused | Stopped

  datatype Anchor = Anchor(status: Status, anchorIndex: int, anchorAt: int, elapsedMs: int, evaluatedAt: int)

  datatype Position = Position(
    index: Option<int>,
    itemId: Option<int>,
    publicationRevisionId: Option<string>,
    elapsedMs: int,
    nextTransitionAt: Option<int>)

  datatype Action = Start | Advance | Change | Pause | Resume | Restart | Stop

  datatype Error = InvalidEntries | InvalidTime | InvalidAnchor | AlreadyStarted | NotStarted

  // ---- Validation ----

  predicate IdentifierChar(c: char) {
    'a' <= c <= 'z' || 'A' <= c <= 'Z' || '0' <= c <= '9' || c == '-'
  }

  predicate Identifier(s: string) {
    1 <= |s| <= 100 && forall i :: 0 <= i < |s| ==> IdentifierChar(s[i])
  }

  predicate ValidDuration(d: Option<int>) {
    d.Some? ==> 1000 <= d.value <= MAX_DURATION
  }

  predicate ValidEntries(entries: seq<Entry>) {
    && |entries| <= 100
    && (forall i, j :: 0 <= i < j < |entries| ==> entries[i].itemId != entries[j].itemId)
    && forall i :: 0 <= i < |entries| ==>
         && 1 <= entries[i].itemId <= MAX_SAFE_INTEGER
         && Identifier(entries[i].publicationRevisionId)
         && ValidDuration(entries[i].durationMs)
  }

  predicate ValidTime(now: int) {
    0 <= now <= MAX_TIME
  }

  /** The evaluation instant: a clock that runs backwards is held at the latest recorded time. */
  function EvaluationTime(now: int, state: Option<Anchor>): int {
    match state
    case None => now
    case Some(s) => Max(now, Max(s.evaluatedAt, s.anchorAt))
  }

  // ---- Reference semantics: the unbounded rotation ----

  /** Entry durations in milliseconds; an untimed entry stays until someone moves on. */
  type Durations = seq<Option<int>>

  predicate Rotatable(durations: Durations) {
    |durations| > 0 && forall i :: 0 <= i < |durations| && durations[i].Some? ==> durations[i].value > 0
  }

  function DurationsOf(entries: seq<Entry>): (durations: Durations)
    ensures |durations| == |entries|
    ensures forall i :: 0 <= i < |entries| ==> durations[i] == entries[i].durationMs
  {
    seq(|entries|, i requires 0 <= i < |entries| => entries[i].durationMs)
  }

  datatype Place = Place(index: int, elapsed: int)

  function Next(index: int, n: int): int {
    if index + 1 == n then 0 else index + 1
  }

  function Rotate(durations: Durations, index: int, elapsed: int): (p: Place)
    requires Rotatable(durations) && 0 <= index < |durations| && 0 <= elapsed
    ensures 0 <= p.index < |durations| && 0 <= p.elapsed <= elapsed
    ensures durations[p.index].Some? ==> p.elapsed < durations[p.index].value
    decreases elapsed
  {
    match durations[index]
    case None => Place(index, elapsed)
    case Some(duration) =>
      if elapsed < duration then Place(index, elapsed)
      else Rotate(durations, Next(index, |durations|), elapsed - duration)
  }

  /** Time can be added before or after rotating. */
  lemma {:induction false} RotateCompose(durations: Durations, index: int, elapsed: int, more: nat)
    requires Rotatable(durations) && 0 <= index < |durations| && 0 <= elapsed
    ensures var p := Rotate(durations, index, elapsed);
            Rotate(durations, index, elapsed + more) == Rotate(durations, p.index, p.elapsed + more)
    decreases elapsed
  {
    match durations[index]
    case None =>
    case Some(duration) =>
      if elapsed >= duration {
        RotateCompose(durations, Next(index, |durations|), elapsed - duration, more);
      }
  }

  predicate AllTimed(durations: Durations) {
    Rotatable(durations) && forall i :: 0 <= i < |durations| ==> durations[i].Some?
  }

  /** The entry reached from index after count steps around a list of n entries. */
  function Forward(index: int, count: int, n: int): int {
    if index + count < n then index + count else index + count - n
  }

  /** Sum of the durations of count entries, cyclically from index. */
  function Span(durations: Durations, index: int, count: nat): (sum: int)
    requires AllTimed(durations) && 0 <= index < |durations|
    ensures sum >= count
    decreases count
  {
    if count == 0 then 0
    else durations[index].value + Span(durations, Next(index, |durations|), count - 1)
  }

  /** Sum of the first upTo durations, in list order. */
  function Prefix(durations: Durations, upTo: nat): int
    requires AllTimed(durations) && upTo <= |durations|
  {
    if upTo == 0 then 0 else Prefix(durations, upTo - 1) + durations[upTo - 1].value
  }

  function Cycle(durations: Durations): int
    requires AllTimed(durations)
  {
    Prefix(durations, |durations|)
  }

  lemma {:induction false} SpanStraight(durations: Durations, index: int, count: nat)
    requires AllTimed(durations) && 0 <= index < |durations| && index + count <= |durations|
    ensures Span(durations, index, count) == Prefix(durations, index + count) - Prefix(durations, index)
    decreases count
  {
    if count == 1 {
      assert Span(durations, Next(index, |durations|), 0) == 0;
    } else if count > 1 {
      SpanStraight(durations, index + 1, count - 1);
    }
  }

  lemma {:induction false} SpanAroundEnd(durations: Durations, index: int, count: nat)
    requires AllTimed(durations) && 0 <= index < |durations|
    ensures Span(durations, index, |durations| - index + count)
         == Span(durations, index, |durations| - index) + Span(durations, 0, count)
    decreases |durations| - index
  {
    var n := |durations|;
    if index + 1 < n {
      SpanAroundEnd(durations, index + 1, count);
    } else {
      assert Span(durations, 0, 0) == 0;
    }
  }

  /** Once around the list takes the same time from every entry. */
  lemma SpanOfCycle(durations: Durations, index: int)
    requires AllTimed(durations) && 0 <= index < |durations|
    ensures Span(durations, index, |durations|) == Cycle(durations)
  {
    SpanAroundEnd(durations, index, index);
    SpanStraight(durations, index, |durations| - index);
    SpanStraight(durations, 0, index);
  }

  lemma {:induction false} RotateOverSpan(durations: Durations, index: int, count: nat, elapsed: nat)
    requires AllTimed(durations) && 0 <= index < |durations| && count <= |durations|
    ensures Rotate(durations, index, Span(durations, index, count) + elapsed)
         == Rotate(durations, Forward(index, count, |durations|), elapsed)
    decreases count
  {
    if count > 0 {
      var next := Next(index, |durations|);
      RotateOverSpan(durations, next, count - 1, elapsed);
    }
  }

  /** Missed cycles leave no trace. */
  lemma {:induction false} RotateCycles(durations: Durations, index: int, cycles: nat, elapsed: nat)
    requires AllTimed(durations) && 0 <= index < |durations|
    ensures Cycle(durations) > 0 && cycles * Cycle(durations) >= 0
    ensures Rotate(durations, index, cycles * Cycle(durations) + elapsed) == Rotate(durations, index, elapsed)
    decreases cycles
  {
    SpanOfCycle(durations, index);
    var cycle := Cycle(durations);
    if cycles > 0 {
      RotateCycles(durations, index, cycles - 1, elapsed);
      var rest := (cycles - 1) * cycle + elapsed;
      assert cycles * cycle + elapsed == cycle + rest;
      RotateOverSpan(durations, index, |durations|, rest);
    }
  }

  /** The single modulus of the source is invisible. */
  lemma RotateModulo(durations: Durations, index: int, elapsed: nat)
    requires AllTimed(durations) && 0 <= index < |durations|
    ensures Cycle(durations) > 0
    ensures Rotate(durations, index, elapsed) == Rotate(durations, index, elapsed % Cycle(durations))
  {
    CyclePositive(durations);
    var cycle := Cycle(durations);
    QuotientAndRemainder(elapsed, cycle);
    RotateCycles(durations, index, elapsed / cycle, elapsed % cycle);
  }

  lemma CyclePositive(durations: Durations)
    requires AllTimed(durations)
    ensures Cycle(durations) > 0
  {
    SpanOfCycle(durations, 0);
  }

  lemma QuotientAndRemainder(a: nat, d: int)
    requires d > 0
    ensures a / d >= 0 && 0 <= a % d < d && a == a / d * d + a % d
  {
  }

  lemma NextIsModulo(index: int, n: int)
    requires 0 <= index < n
    ensures (index + 1) % n == Next(index, n)
  {
  }

  // ---- position ----

  /** A list rotates when it runs and has somewhere to go. */
  predicate Rotates(state: Anchor, entries: seq<Entry>) {
    state.status == Running && |entries| > 1
  }

  function ElapsedAt(state: Anchor, at: int): int {
    state.elapsedMs + if state.status == Running then at - state.anchorAt else 0
  }

  predicate AnchorInRange(state: Anchor, entries: seq<Entry>) {
    0 <= state.anchorIndex < |entries| && 0 <= state.elapsedMs <= MAX_SAFE_INTEGER
  }

  function PlaceAt(state: Anchor, entries: seq<Entry>, at: int): (p: Place)
    requires ValidEntries(entries) && AnchorInRange(state, entries) && state.anchorAt <= at
    ensures 0 <= p.index < |entries| && 0 <= p.elapsed
  {
    if Rotates(state, entries) then Rotate(DurationsOf(entries), state.anchorIndex, ElapsedAt(state, at))
    else Place(state.anchorIndex, ElapsedAt(state, at))
  }

  function NextTransition(state: Anchor, entries: seq<Entry>, at: int): Option<int>
    requires ValidEntries(entries) && AnchorInRange(state, entries) && state.anchorAt <= at
  {
    var p := PlaceAt(state, entries, at);
    var duration := entries[p.index].durationMs;
    if Rotates(state, entries) && duration.Some? then Some(at + (duration.value - p.elapsed)) else None
  }

  const NO_POSITION := Position(None, None, None, 0, None)

  function PositionOf(entry: Entry, index: int, elapsed: int, next: Option<int>): Position {
    Position(Some(index), Some(entry.itemId), Some(entry.publicationRevisionId), elapsed, next)
  }

  /** What position must return, by the slow rotation. */
  function PositionAt(state: Anchor, entries: seq<Entry>, now: int): Result<Position, Error> {
    if !ValidEntries(entries) then Err(InvalidEntries)
    else if !ValidTime(now) then Err(InvalidTime)
    else if entries == [] then Ok(NO_POSITION)
    else if !AnchorInRange(state, entries) then Err(InvalidAnchor)
    else
      var at := EvaluationTime(now, Some(state));
      var p := PlaceAt(state, entries, at);
      var next := NextTransition(state, entries, at);
      if next.Some? && next.value > MAX_TIME then Err(InvalidTime)
      else Ok(PositionOf(entries[p.index], p.index, p.elapsed, next))
  }

  /** One modulus and at most one subtraction per entry, however many cycles were missed. */
  method ComputePosition(state: Anchor, entries: seq<Entry>, now: int) returns (result: Result<Position, Error>)
    ensures result == PositionAt(state, entries, now)
  {
    if !ValidEntries(entries) {
      return Err(InvalidEntries);
    }
    if !ValidTime(now) {
      return Err(InvalidTime);
    }
    var at := EvaluationTime(now, Some(state));
    if entries == [] {
      return Ok(NO_POSITION);
    }
    if !AnchorInRange(state, entries) {
      return Err(InvalidAnchor);
    }
    var index := state.anchorIndex;
    var elapsed := state.elapsedMs + if state.status == Running then at - state.anchorAt else 0;
    var running := state.status == Running && |entries| > 1;
    if running {
      index, elapsed := Jump(DurationsOf(entries), index, elapsed);
    }
    var entry := entries[index];
    var next := if running && entry.durationMs.Some? then Some(at + (entry.durationMs.value - elapsed)) else None;
    if next.Some? && next.value > MAX_TIME {
      return Err(InvalidTime);
    }
    return Ok(PositionOf(entry, index, elapsed, next));
  }

  /** elapsed % cycle when every entry is timed; a list with an untimed entry never wraps. */
  method DropCycles(durations: Durations, start: int, time: int) returns (elapsed: int)
    requires Rotatable(durations) && 0 <= start < |durations| && 0 <= time
    ensures 0 <= elapsed && Rotate(durations, start, elapsed) == Rotate(durations, start, time)
    ensures AllTimed(durations) ==> elapsed < Cycle(durations)
  {
    elapsed := time;
    var n := |durations|;
    if forall i :: 0 <= i < n ==> durations[i].Some? {
      var cycle, k := 0, 0;
      while k < n
        invariant 0 <= k <= n && cycle == Prefix(durations, k)
      {
        cycle := cycle + durations[k].value;
        k := k + 1;
      }
      RotateModulo(durations, start, time);
      elapsed := elapsed % cycle;
    }
  }

  method Jump(durations: Durations, start: int, time: int) returns (index: int, elapsed: int)
    requires Rotatable(durations) && 0 <= start < |durations| && 0 <= time
    ensures Place(index, elapsed) == Rotate(durations, start, time)
  {
    var n := |durations|;
    elapsed := DropCycles(durations, start, time);
    index := start;
    ghost var reduced := elapsed;
    var i := 0;
    while i < n
      invariant 0 <= i <= n && 0 <= index < n && 0 <= elapsed
      invariant Rotate(durations, start, time) == Rotate(durations, index, elapsed)
      invariant index == Forward(start, i, n)
      invariant forall j :: 0 <= j < i ==> durations[Forward(start, j, n)].Some?
      invariant AllTimed(durations) ==> elapsed == reduced - Span(durations, start, i)
    {
      var duration := durations[index];
      if duration.None? || elapsed < duration.value {
        return;
      }
      SpanEnd(durations, start, i);
      NextIsModulo(index, n);
      elapsed := elapsed - duration.value;
      index := (index + 1) % n;
      i := i + 1;
    }
    EveryEntrySeen(durations, start);
    SpanOfCycle(durations, start);
    assert false;
  }

  /** The last entry of a span is the one count steps ahead. */
  lemma {:induction false} SpanEnd(durations: Durations, index: int, count: nat)
    requires Rotatable(durations) && 0 <= index < |durations| && count < |durations|
    ensures AllTimed(durations) ==>
              Span(durations, index, count + 1)
              == Span(durations, index, count) + durations[Forward(index, count, |durations|)].value
    decreases count
  {
    if AllTimed(durations) && count > 0 {
      SpanEnd(durations, Next(index, |durations|), count - 1);
    }
  }

  lemma EveryEntrySeen(durations: Durations, start: int)
    requires Rotatable(durations) && 0 <= start < |durations|
    requires forall j :: 0 <= j < |durations| ==> durations[Forward(start, j, |durations|)].Some?
    ensures AllTimed(durations)
  {
    var n := |durations|;
    forall i | 0 <= i < n ensures durations[i].Some? {
      assert i == Forward(start, if i >= start then i - start else i - start + n, n);
    }
  }

  // ---- transition ----

  function Fresh(index: int, status: Status, elapsed: int, at: int): Anchor {
    Anchor(status, index, at, elapsed, at)
  }

  /** Array.findIndex by item; -1 when the item is absent. */
  function FindItem(entries: seq<Entry>, item: Option<int>, from: nat): (i: int)
    requires from <= |entries|
    ensures i == -1 || from <= i < |entries|
    ensures i >= 0 ==> item == Some(entries[i].itemId)
    ensures i == -1 ==> forall j :: from <= j < |entries| ==> item != Some(entries[j].itemId)
    decreases |entries| - from
  {
    if from == |entries| then -1
    else if item == Some(entries[from].itemId) then from
    else FindItem(entries, item, from + 1)
  }

  function Transition(state: Option<Anchor>, entries: seq<Entry>, action: Action, now: int, replacement: seq<Entry>)
    : Result<Anchor, Error>
  {
    if !ValidEntries(entries) || !ValidEntries(replacement) then Err(InvalidEntries)
    else if !ValidTime(now) then Err(InvalidTime)
    else
      var at := EvaluationTime(now, state);
      if action == Start then
        if state.Some? && state.value.status != Stopped && state.value.status != Empty then Err(AlreadyStarted)
        else Ok(Fresh(0, if replacement != [] then Running else Empty, 0, at))
      else if state.None? then Err(NotStarted)
      else if action == Restart then Ok(state.value.(evaluatedAt := at))
      else
        match PositionAt(state.value, entries, at)
        case Err(e) => Err(e)
        case Ok(current) => Ok(Move(state.value, entries, action, at, replacement, current))
  }

  function Move(state: Anchor, entries: seq<Entry>, action: Action, at: int, replacement: seq<Entry>, current: Position)
    : Anchor
  {
    var index := if current.index.Some? then current.index.value else 0;
    match action
    case Change =>
      if replacement == [] then Fresh(0, Empty, 0, at)
      else
        var preserved := FindItem(replacement, current.itemId, 0);
        var status := if state.status == Paused || state.status == Stopped then state.status else Running;
        Fresh(Max(0, preserved), status, if preserved < 0 then 0 else current.elapsedMs, at)
    case Pause => if state.status == Running then Fresh(index, Paused, current.elapsedMs, at) else state
    case Resume => if state.status == Paused then Fresh(state.anchorIndex, Running, state.elapsedMs, at) else state
    case Stop => if state.status == Stopped then state else Fresh(index, Stopped, current.elapsedMs, at)
    case _ =>
      if state.status == Empty || state.status == Stopped || entries == [] then state
      else Fresh((index + 1) % |entries|, state.status, 0, at)
  }

  // ---- Every reachable state ----

  datatype Command = Command(action: Action, now: int, replacement: seq<Entry>)

  /** What is stored between commands: the anchor and the list it refers to. */
  datatype Session = Session(anchor: Option<Anchor>, entries: seq<Entry>)

  /** Only start and change bring a new list; a refused command leaves everything as it was. */
  function Apply(session: Session, command: Command): Session {
    var newList := command.action == Start || command.action == Change;
    var entries := if newList then command.replacement else session.entries;
    match Transition(session.anchor, session.entries, command.action, command.now, entries)
    case Err(_) => session
    case Ok(anchor) => Session(Some(anchor), entries)
  }

  function Run(commands: seq<Command>): Session {
    if commands == [] then Session(None, [])
    else Apply(Run(commands[..|commands| - 1]), commands[|commands| - 1])
  }

  predicate WellTimed(state: Anchor) {
    0 <= state.elapsedMs <= state.anchorAt <= state.evaluatedAt <= MAX_TIME
  }

  predicate Consistent(session: Session) {
    && ValidEntries(session.entries)
    && (session.anchor.None? ==> session.entries == [])
    && (session.anchor.Some? ==>
          var state := session.anchor.value;
          && WellTimed(state)
          && (session.entries != [] ==> 0 <= state.anchorIndex < |session.entries|)
          && (state.status == Running || state.status == Paused ==> session.entries != [])
          && (state.status == Empty ==> session.entries == []))
  }

  lemma PositionBounds(state: Anchor, entries: seq<Entry>, now: int)
    requires ValidEntries(entries) && WellTimed(state) && ValidTime(now)
    requires entries != [] ==> 0 <= state.anchorIndex < |entries|
    ensures PositionAt(state, entries, now).Err? ==> PositionAt(state, entries, now).error == InvalidTime
    ensures PositionAt(state, entries, now).Ok? ==>
              var p := PositionAt(state, entries, now).value;
              && (p.index.Some? <==> entries != [])
              && (p.index.Some? ==> 0 <= p.index.value < |entries|)
              && 0 <= p.elapsedMs <= EvaluationTime(now, Some(state))
  {
  }

  lemma MoveKeepsConsistent(session: Session, action: Action, at: int, entries: seq<Entry>, current: Position)
    requires Consistent(session) && session.anchor.Some? && ValidEntries(entries)
    requires action != Start && action != Restart && (action != Change ==> entries == session.entries)
    requires session.anchor.value.evaluatedAt <= at <= MAX_TIME
    requires current.index.Some? <==> session.entries != []
    requires current.index.Some? ==> 0 <= current.index.value < |session.entries|
    requires 0 <= current.elapsedMs <= at
    ensures var moved := Move(session.anchor.value, session.entries, action, at, entries, current);
            Consistent(Session(Some(moved), entries)) && session.anchor.value.evaluatedAt <= moved.evaluatedAt
  {
    if action == Advance && session.entries != [] {
      NextIsModulo(current.index.value, |session.entries|);
    }
  }

  lemma ApplyKeepsConsistent(session: Session, command: Command)
    requires Consistent(session)
    ensures Consistent(Apply(session, command))
    ensures session.anchor.Some? ==>
              && Apply(session, command).anchor.Some?
              && session.anchor.value.evaluatedAt <= Apply(session, command).anchor.value.evaluatedAt
  {
    if session.anchor.Some? && Apply(session, command) != session && command.action != Start && command.action != Restart {
      var at := EvaluationTime(command.now, session.anchor);
      PositionBounds(session.anchor.value, session.entries, at);
      var current := PositionAt(session.anchor.value, session.entries, at).value;
      MoveKeepsConsistent(session, command.action, at, Apply(session, command).entries, current);
    }
  }

  /** Whatever the clock does, every reachable state is consistent and never moves back in time. */
  lemma {:induction false} ReachableStates(commands: seq<Command>, earlier: nat)
    requires earlier <= |commands|
    ensures Consistent(Run(commands))
    ensures Run(commands[..earlier]).anchor.Some? ==>
              && Run(commands).anchor.Some?
              && Run(commands[..earlier]).anchor.value.evaluatedAt <= Run(commands).anchor.value.evaluatedAt
    decreases |commands|
  {
    if earlier == |commands| {
      assert commands[..earlier] == commands;
    }
    if commands != [] {
      var before := commands[..|commands| - 1];
      ReachableStates(before, Min(earlier, |before|));
      ApplyKeepsConsistent(Run(before), commands[|commands| - 1]);
      if earlier < |commands| {
        assert commands[..earlier] == before[..earlier];
      }
    }
  }

  /** No reachable anchor is refused: only the clock or the end of supported time can be. */
  lemma ReachablePositions(commands: seq<Command>, now: int)
    requires Run(commands).anchor.Some?
    ensures var state, entries := Run(commands).anchor.value, Run(commands).entries;
            var at := EvaluationTime(now, Some(state));
            && ValidEntries(entries)
            && (PositionAt(state, entries, now).Ok? <==>
                  && ValidTime(now)
                  && (entries == [] || (
                        && AnchorInRange(state, entries)
                        && (NextTransition(state, entries, at).Some? ==> NextTransition(state, entries, at).value <= MAX_TIME))))
            && (ValidTime(now) && entries != [] ==>
                  && AnchorInRange(state, entries)
                  && 0 <= ElapsedAt(state, at) <= MAX_TIME
                  && (NextTransition(state, entries, at).Some? ==>
                        at < NextTransition(state, entries, at).value <= MAX_TIME + MAX_DURATION < MAX_SAFE_INTEGER))
  {
    ReachableStates(commands, |commands|);
  }

  /** The refusal, said by the rotation: the timed entry shown now is still shown when supported time ends. */
  lemma RefusedAtTheEnd(state: Anchor, entries: seq<Entry>, now: int)
    requires ValidEntries(entries) && entries != [] && ValidTime(now) && WellTimed(state) && AnchorInRange(state, entries)
    ensures var at := EvaluationTime(now, Some(state));
            var p := PlaceAt(state, entries, at);
            PositionAt(state, entries, now).Err?
            <==> Rotates(state, entries) && entries[p.index].durationMs.Some?
                 && PlaceAt(state, entries, MAX_TIME) == Place(p.index, p.elapsed + MAX_TIME - at)
  {
    var at := EvaluationTime(now, Some(state));
    if Rotates(state, entries) {
      RotateCompose(DurationsOf(entries), state.anchorIndex, ElapsedAt(state, at), MAX_TIME - at);
    }
  }

  predicate Early(at: int) {
    at <= MAX_TIME - MAX_DURATION
  }

  /** A check before the call: one day before the end of supported time, or without rotation, nothing
      is refused. */
  lemma EarlyIsAccepted(state: Anchor, entries: seq<Entry>, now: int)
    requires ValidEntries(entries) && ValidTime(now) && WellTimed(state)
    requires entries == [] || AnchorInRange(state, entries)
    requires Early(EvaluationTime(now, Some(state))) || !Rotates(state, entries)
    ensures PositionAt(state, entries, now).Ok?
  {
  }

  /** Every session that is evaluated at this time has a position. */
  ghost predicate NeverRefusedAt(at: int) {
    forall commands :: Run(commands).anchor.Some? && EvaluationTime(at, Run(commands).anchor) == at
      ==> PositionAt(Run(commands).anchor.value, Run(commands).entries, at).Ok?
  }

  const DAY_LONG := [Entry(1, "a", Some(MAX_DURATION)), Entry(2, "b", Some(MAX_DURATION))]

  /** The last day of supported time, exactly: before it every reachable session has a position, and on
      it a session of two day-long entries that starts then has none. */
  lemma PositionsUntilTheLastDay(at: int)
    requires ValidTime(at)
    ensures NeverRefusedAt(at) <==> Early(at)
  {
    if Early(at) {
      forall commands | Run(commands).anchor.Some? && EvaluationTime(at, Run(commands).anchor) == at
        ensures PositionAt(Run(commands).anchor.value, Run(commands).entries, at).Ok?
      {
        ReachableStates(commands, |commands|);
        EarlyIsAccepted(Run(commands).anchor.value, Run(commands).entries, at);
      }
    } else {
      StartedOnTheLastDay(at);
    }
  }

  lemma StartedOnTheLastDay(at: int)
    requires ValidTime(at) && !Early(at)
    ensures var session := Run([Command(Start, at, DAY_LONG)]);
            && session.anchor.Some? && EvaluationTime(at, session.anchor) == at
            && PositionAt(session.anchor.value, session.entries, at) == Err(InvalidTime)
  {
    var commands := [Command(Start, at, DAY_LONG)];
    assert commands[..0] == [];
    assert Run(commands) == Apply(Run([]), commands[0]);
    assert Rotate(DurationsOf(DAY_LONG), 0, 0) == Place(0, 0);
  }

  lemma {:induction false} PrefixBound(durations: Durations, upTo: nat)
    requires AllTimed(durations) && upTo <= |durations|
    requires forall i :: 0 <= i < |durations| ==> durations[i].value <= MAX_DURATION
    ensures Prefix(durations, upTo) <= upTo * MAX_DURATION
  {
    if upTo > 0 {
      PrefixBound(durations, upTo - 1);
    }
  }

  /** The divisor of the source's modulus is an exactly represented integer. */
  lemma CycleIsSafe(entries: seq<Entry>)
    requires ValidEntries(entries) && AllTimed(DurationsOf(entries))
    ensures 1000 <= Cycle(DurationsOf(entries)) <= 8_640_000_000 < MAX_SAFE_INTEGER
  {
    var durations := DurationsOf(entries);
    PrefixBound(durations, |durations|);
    PrefixStarts(durations, |durations|);
  }

  lemma {:induction false} PrefixStarts(durations: Durations, upTo: nat)
    requires AllTimed(durations) && 1 <= upTo <= |durations|
    ensures Prefix(durations, upTo) >= durations[0].value
  {
    if upTo > 1 {
      PrefixStarts(durations, upTo - 1);
    } else {
      assert Prefix(durations, 0) == 0;
    }
  }

  // ---- Re-anchoring, pausing, boundaries ----

  lemma ReanchorPlace(state: Anchor, entries: seq<Entry>, at: int, later: int)
    requires ValidEntries(entries) && WellTimed(state) && 0 <= state.anchorIndex < |entries|
    requires state.anchorAt <= at <= later <= MAX_TIME
    ensures var p := PlaceAt(state, entries, at);
            var anchored := Fresh(p.index, state.status, p.elapsed, at);
            p.elapsed <= at && AnchorInRange(anchored, entries)
            && PlaceAt(anchored, entries, later) == PlaceAt(state, entries, later)
            && NextTransition(anchored, entries, later) == NextTransition(state, entries, later)
  {
    if Rotates(state, entries) {
      RotateCompose(DurationsOf(entries), state.anchorIndex, ElapsedAt(state, at), later - at);
    }
  }

  /** Evaluating, anchoring at the result and evaluating later is evaluating once. */
  lemma Reanchor(state: Anchor, entries: seq<Entry>, t1: int, t2: int)
    requires ValidEntries(entries) && WellTimed(state) && 0 <= state.anchorIndex < |entries|
    requires ValidTime(t1) && t1 <= t2 && PositionAt(state, entries, t1).Ok?
    ensures var at, p := EvaluationTime(t1, Some(state)), PositionAt(state, entries, t1).value;
            p.index.Some? && PositionAt(Fresh(p.index.value, state.status, p.elapsedMs, at), entries, t2)
                             == PositionAt(state, entries, t2)
  {
    if ValidTime(t2) {
      ReanchorPlace(state, entries, EvaluationTime(t1, Some(state)), EvaluationTime(t2, Some(state)));
    }
  }

  function Delayed(p: Position, delay: int): Position {
    p.(nextTransitionAt := match p.nextTransitionAt case None => None case Some(t) => Some(t + delay))
  }

  /** Holding a place while time passes and running on from it delays the whole schedule. */
  lemma HoldThenRun(state: Anchor, entries: seq<Entry>, from: int, to: int, later: nat)
    requires ValidEntries(entries) && WellTimed(state) && 0 <= state.anchorIndex < |entries|
    requires state.status == Running && state.evaluatedAt <= from <= to && to + later <= MAX_TIME
    ensures var p := PlaceAt(state, entries, from);
            var held := Fresh(p.index, Running, p.elapsed, to);
            && AnchorInRange(held, entries)
            && PlaceAt(held, entries, to + later) == PlaceAt(state, entries, from + later)
  {
    if Rotates(state, entries) {
      RotateCompose(DurationsOf(entries), state.anchorIndex, ElapsedAt(state, from), later);
    }
  }

  /** Pausing and resuming both succeed and keep the place that was shown at the pause. */
  lemma PauseHoldsPlace(state: Anchor, entries: seq<Entry>, t1: int, t2: int)
    requires ValidEntries(entries) && WellTimed(state) && 0 <= state.anchorIndex < |entries|
    requires state.status == Running && ValidTime(t1) && ValidTime(t2)
    requires Transition(Some(state), entries, Pause, t1, entries).Ok?
    ensures var pausedAt := EvaluationTime(t1, Some(state));
            var p := PlaceAt(state, entries, pausedAt);
            var paused := Fresh(p.index, Paused, p.elapsed, pausedAt);
            var resumedAt := EvaluationTime(t2, Some(paused));
            && state.evaluatedAt <= pausedAt <= resumedAt <= MAX_TIME
            && Transition(Some(state), entries, Pause, t1, entries) == Ok(paused)
            && Transition(Some(paused), entries, Resume, t2, entries) == Ok(Fresh(p.index, Running, p.elapsed, resumedAt))
  {
    var pausedAt := EvaluationTime(t1, Some(state));
    PositionBounds(state, entries, pausedAt);
    var p := PlaceAt(state, entries, pausedAt);
    var paused := Fresh(p.index, Paused, p.elapsed, pausedAt);
    var resumedAt := EvaluationTime(t2, Some(paused));
    assert PositionAt(paused, entries, resumedAt).Ok?;
  }

  lemma HoldDelaysPosition(state: Anchor, entries: seq<Entry>, from: int, to: int, later: nat)
    requires ValidEntries(entries) && WellTimed(state) && 0 <= state.anchorIndex < |entries|
    requires state.status == Running && state.evaluatedAt <= from <= to && ValidTime(to + later)
    ensures var p := PlaceAt(state, entries, from);
            var without := PositionAt(state, entries, from + later);
            var after := PositionAt(Fresh(p.index, Running, p.elapsed, to), entries, to + later);
            && (without.Err? ==> after.Err?)
            && (after.Ok? ==> after.value == Delayed(without.value, to - from))
  {
    HoldThenRun(state, entries, from, to, later);
  }

  /** A pause from t1 to t2 postpones everything that follows by exactly the paused time. */
  lemma PauseThenResume(state: Anchor, entries: seq<Entry>, t1: int, t2: int, later: nat)
    requires ValidEntries(entries) && WellTimed(state) && 0 <= state.anchorIndex < |entries|
    requires state.status == Running && ValidTime(t1) && ValidTime(t2)
    requires Transition(Some(state), entries, Pause, t1, entries).Ok?
    ensures var from := EvaluationTime(t1, Some(state));
            var p := PlaceAt(state, entries, from);
            var to := EvaluationTime(t2, Some(Fresh(p.index, Paused, p.elapsed, from)));
            && Transition(Some(state), entries, Pause, t1, entries) == Ok(Fresh(p.index, Paused, p.elapsed, from))
            && Transition(Some(Fresh(p.index, Paused, p.elapsed, from)), entries, Resume, t2, entries)
               == Ok(Fresh(p.index, Running, p.elapsed, to))
            && from <= to
            && (ValidTime(to + later) ==>
                  var without := PositionAt(state, entries, from + later);
                  var after := PositionAt(Fresh(p.index, Running, p.elapsed, to), entries, to + later);
                  && (without.Err? ==> after.Err?)
                  && (after.Ok? ==> after.value == Delayed(without.value, to - from)))
  {
    var from := EvaluationTime(t1, Some(state));
    var p := PlaceAt(state, entries, from);
    var to := EvaluationTime(t2, Some(Fresh(p.index, Paused, p.elapsed, from)));
    PauseHoldsPlace(state, entries, t1, t2);
    if ValidTime(to + later) {
      HoldDelaysPosition(state, entries, from, to, later);
    }
  }

  lemma PlaceBoundary(state: Anchor, entries: seq<Entry>, at: int, t: int)
    requires ValidEntries(entries) && WellTimed(state) && 0 <= state.anchorIndex < |entries|
    requires state.evaluatedAt <= at <= t
    requires NextTransition(state, entries, at).Some? ==> t <= NextTransition(state, entries, at).value
    ensures var p := PlaceAt(state, entries, at);
            PlaceAt(state, entries, t)
            == if NextTransition(state, entries, at) == Some(t) then Place(Next(p.index, |entries|), 0)
               else Place(p.index, p.elapsed + if state.status == Running then t - at else 0)
  {
    if Rotates(state, entries) {
      var durations, p := DurationsOf(entries), PlaceAt(state, entries, at);
      RotateCompose(durations, state.anchorIndex, ElapsedAt(state, at), t - at);
      if NextTransition(state, entries, at) == Some(t) {
        assert Rotate(durations, Next(p.index, |entries|), 0) == Place(Next(p.index, |entries|), 0);
      }
    }
  }

  /** The shown entry is constant until the announced transition and is the cyclic successor there. */
  lemma TransitionBoundary(state: Anchor, entries: seq<Entry>, now: int, t: int)
    requires ValidEntries(entries) && WellTimed(state) && 0 <= state.anchorIndex < |entries|
    requires ValidTime(now) && PositionAt(state, entries, now).Ok?
    requires var next := PositionAt(state, entries, now).value.nextTransitionAt;
             EvaluationTime(now, Some(state)) <= t <= MAX_TIME && (next.Some? ==> t <= next.value)
    ensures var at, p := EvaluationTime(now, Some(state)), PositionAt(state, entries, now).value;
            var q := PositionAt(state, entries, t);
            if p.nextTransitionAt == Some(t) then
              q.Ok? ==> p.index.Some? && q.value.index == Some(Next(p.index.value, |entries|)) && q.value.elapsedMs == 0
            else
              && q.Ok?
              && q.value == p.(elapsedMs := p.elapsedMs + if state.status == Running then t - at else 0)
  {
    var at, p := EvaluationTime(now, Some(state)), PositionAt(state, entries, now).value;
    PlaceBoundary(state, entries, at, t);
  }

  // ---- What the actions show ----

  /** Advancing shows the cyclic successor of what is shown, from its beginning. */
  lemma AdvanceShowsSuccessor(state: Anchor, entries: seq<Entry>, now: int)
    requires ValidEntries(entries) && WellTimed(state) && 0 <= state.anchorIndex < |entries|
    requires state.status == Running || state.status == Paused
    requires ValidTime(now) && PositionAt(state, entries, now).Ok?
    ensures var at, next := EvaluationTime(now, Some(state)), Transition(Some(state), entries, Advance, now, entries);
            && next.Ok? && next.value.status == state.status && next.value.evaluatedAt == at
            && var before, after := PositionAt(state, entries, now).value, PositionAt(next.value, entries, at);
               && before.index.Some?
               && (after.Ok? ==> after.value.index == Some(Next(before.index.value, |entries|)) && after.value.elapsedMs == 0)
  {
    var at, before := EvaluationTime(now, Some(state)), PositionAt(state, entries, now).value;
    assert PositionAt(state, entries, at) == PositionAt(state, entries, now);
    NextIsModulo(before.index.value, |entries|);
    var next := Transition(Some(state), entries, Advance, now, entries).value;
    assert entries[next.anchorIndex].durationMs.Some? ==> entries[next.anchorIndex].durationMs.value > 0;
  }

  /** Changing the list keeps the item that is shown, with the time it has been shown; an item that is
      gone gives way to the first of the new list. */
  lemma ChangeKeepsItem(state: Anchor, entries: seq<Entry>, now: int, replacement: seq<Entry>)
    requires ValidEntries(entries) && WellTimed(state) && 0 <= state.anchorIndex < |entries|
    requires ValidEntries(replacement) && replacement != []
    requires ValidTime(now) && PositionAt(state, entries, now).Ok?
    ensures var next, shown := Transition(Some(state), entries, Change, now, replacement), PositionAt(state, entries, now).value;
            && next.Ok? && 0 <= next.value.anchorIndex < |replacement|
            && (if exists i :: 0 <= i < |replacement| && Some(replacement[i].itemId) == shown.itemId
                then Some(replacement[next.value.anchorIndex].itemId) == shown.itemId && next.value.elapsedMs == shown.elapsedMs
                else next.value.anchorIndex == 0 && next.value.elapsedMs == 0)
  {
    assert PositionAt(state, entries, EvaluationTime(now, Some(state))) == PositionAt(state, entries, now);
    var shown := PositionAt(state, entries, now).value;
    var preserved := FindItem(replacement, shown.itemId, 0);
  }
}
