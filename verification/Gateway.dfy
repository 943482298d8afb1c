/**
 Live display sockets (backend/src/device-platform/web-display.gateway.ts): connections, the index by
 device, sockets still closing, and the message budget of each connection.
 */
module Gateway {
  import opened Base

  type Id = nat
  type DeviceId = nat

  const MAX_CONNECTIONS := 1024
  const MAX_PER_DEVICE := 4
  const MAX_PENDING := 8
  // Thousandths of a message: twenty at once, two more each second.
  const BURST := 20_000
  const PER_MS := 2
  const MESSAGE := 1000

  // ---- comparePresentationRevisions ----

  datatype Revision = Revision(revision: int, render: Option<int>)

  function RenderOf(r: Revision): int {
    if r.render.None? then 0 else r.render.value
  }

  function Compare(left: Revision, right: Revision): int {
    if left.revision != right.revision then if left.revision < right.revision then -1 else 1
    else if RenderOf(left) < RenderOf(right) then -1
    else if RenderOf(left) > RenderOf(right) then 1
    else 0
  }

  /** Assignment first, then the render generation; a missing generation is zero. */
  lemma CompareIsLexicographic(a: Revision, b: Revision, c: Revision)
    ensures Compare(a, b) < 0 <==> a.revision < b.revision || (a.revision == b.revision && RenderOf(a) < RenderOf(b))
    ensures Compare(a, b) == -Compare(b, a)
    ensures Compare(a, b) <= 0 && Compare(b, c) <= 0 ==> Compare(a, c) <= 0
    ensures Compare(a, b) == 0 <==> a.revision == b.revision && RenderOf(a) == RenderOf(b)
  {
  }

  // ---- The message budget ----

  datatype Bucket = Bucket(tokens: int, time: int)

  function Refill(b: Bucket, now: int): int {
    Min(BURST, b.tokens + Max(0, now - b.time) * PER_MS)
  }

  /** The bucket after a message at this time, or None when the message is refused. */
  function Spend(b: Bucket, now: int): Option<Bucket> {
    if Refill(b, now) < MESSAGE then None else Some(Bucket(Refill(b, now) - MESSAGE, now))
  }

  function SpendAll(b: Bucket, times: seq<int>): Option<Bucket> {
    if times == [] then Some(b)
    else
      match SpendAll(b, times[..|times| - 1])
      case None => None
      case Some(before) => Spend(before, times[|times| - 1])
  }

  /** Time the clock moved forward between messages; what it jumped back is not subtracted. */
  function Forward(times: seq<int>): nat {
    if |times| <= 1 then 0
    else Forward(times[..|times| - 1]) + Max(0, times[|times| - 1] - times[|times| - 2])
  }

  /** Whatever the clock does, the messages that pass cost no more than the burst and what the forward
      movement of the clock earned. */
  lemma {:induction false} BudgetHolds(b: Bucket, times: seq<int>)
    requires 0 <= b.tokens <= BURST && times != [] && SpendAll(b, times).Some?
    ensures var after := SpendAll(b, times).value;
            && 0 <= after.tokens <= BURST - MESSAGE && after.time == times[|times| - 1]
            && after.tokens + MESSAGE * |times| <= BURST + PER_MS * Forward(times)
    decreases |times|
  {
    var front := times[..|times| - 1];
    if front == [] {
      assert SpendAll(b, front) == Some(b);
    } else {
      BudgetHolds(b, front);
      assert front[|front| - 1] == times[|times| - 2];
    }
  }

  ghost predicate Monotone(times: seq<int>) {
    forall i, j :: 0 <= i < j < |times| ==> times[i] <= times[j]
  }

  lemma {:induction false} MonotoneForward(times: seq<int>)
    requires times != [] && Monotone(times)
    ensures Forward(times) == times[|times| - 1] - times[0]
    decreases |times|
  {
    if |times| > 1 {
      var front := times[..|times| - 1];
      MonotoneForward(front);
      assert times[|times| - 2] <= times[|times| - 1];
    }
  }

  /** With a clock that never goes back, any interval passes at most 20 messages and 2 per second. */
  lemma IntervalBudget(b: Bucket, times: seq<int>)
    requires 0 <= b.tokens <= BURST && times != [] && Monotone(times) && SpendAll(b, times).Some?
    ensures 1000 * |times| <= 20 * 1000 + 2 * (times[|times| - 1] - times[0])
  {
    BudgetHolds(b, times);
    MonotoneForward(times);
  }

  lemma {:induction false} Burst(b: Bucket, now: int, n: nat)
    requires b.time == now && MESSAGE * n <= b.tokens <= BURST
    ensures SpendAll(b, seq(n, i => now)) == Some(Bucket(b.tokens - MESSAGE * n, now))
    decreases n
  {
    if n > 0 {
      Burst(b, now, n - 1);
      assert seq(n, i => now)[..n - 1] == seq(n - 1, i => now);
    }
  }

  lemma {:induction false} SpendInTwo(b: Bucket, first: seq<int>, second: seq<int>)
    requires SpendAll(b, first).Some?
    ensures SpendAll(b, first + second) == SpendAll(SpendAll(b, first).value, second)
    decreases |second|
  {
    if second == [] {
      assert first + second == first;
    } else {
      SpendInTwo(b, first, second[..|second| - 1]);
      assert (first + second)[..|first + second| - 1] == first + second[..|second| - 1];
    }
  }

  /** A clock that steps back once lets forty messages pass between two equal readings. */
  lemma ClockStepDoublesBurst()
    ensures exists times: seq<int> :: |times| == 40 && times[0] == times[39] && SpendAll(Bucket(BURST, 10_000), times).Some?
  {
    var start := Bucket(BURST, 10_000);
    var before, step, after := seq(19, i => 10_000), [0], seq(20, i => 10_000);
    Burst(start, 10_000, 19);
    assert step[..0] == [];
    var low := SpendAll(Bucket(MESSAGE, 10_000), step);
    assert low == Some(Bucket(0, 0)) by {
      assert SpendAll(Bucket(MESSAGE, 10_000), step[..0]) == Some(Bucket(MESSAGE, 10_000));
    }
    SpendInTwo(start, before, step);
    var earned := [10_000];
    assert earned[..0] == [];
    assert SpendAll(Bucket(0, 0), earned) == Some(Bucket(BURST - MESSAGE, 10_000)) by {
      assert SpendAll(Bucket(0, 0), earned[..0]) == Some(Bucket(0, 0));
    }
    var rest := seq(19, i => 10_000);
    Burst(Bucket(BURST - MESSAGE, 10_000), 10_000, 19);
    SpendInTwo(Bucket(0, 0), earned, rest);
    SpendInTwo(start, before + step, earned + rest);
    var times := before + step + (earned + rest);
    assert |times| == 40 && times[0] == times[39];
  }

  // ---- Connections ----

  datatype Connection = Connection(session: Option<DeviceId>, bucket: Bucket, queued: nat, draining: bool, last: Option<Revision>)

  datatype State = State(
    closing: bool,
    clients: map<Id, Connection>,
    index: map<DeviceId, set<Id>>,
    terminating: set<Id>)

  const EMPTY := State(false, map[], map[], {})

  function Members(s: State, device: DeviceId): set<Id> {
    if device in s.index then s.index[device] else {}
  }

  function Full(s: State): bool {
    |s.clients| + |s.terminating| >= MAX_CONNECTIONS
  }

  function Accept(s: State, id: Id, now: int): State {
    if s.closing || Full(s) then s
    else s.(clients := s.clients[id := Connection(None, Bucket(BURST, now), 0, false, None)])
  }

  /** The transport is gone: forget the connection and drop an emptied group. */
  function Cleanup(s: State, id: Id): State {
    if id !in s.clients then s
    else
      var session := s.clients[id].session;
      var rest := s.(clients := s.clients - {id});
      if session.None? then rest
      else
        var group := Members(s, session.value) - {id};
        rest.(index := if group == {} then s.index - {session.value} else s.index[session.value := group])
  }

  /** Close from our side; the socket keeps its place until it is really closed. */
  function Disconnect(s: State, id: Id): State {
    if id !in s.clients then s else Cleanup(s, id).(terminating := s.terminating + {id})
  }

  /** What a message turns out to be once it is parsed. */
  datatype Message = Invalid | Authenticate | Other

  /** The connection with the message queued, or None when the connection must go. */
  function Queued(c: Connection, now: int, message: Message): Option<Connection> {
    var spent := Spend(c.bucket, now);
    if spent.None? || c.queued >= MAX_PENDING then None
    else if message.Invalid? || (c.session.None? && (c.draining || !message.Authenticate?)) then None
    else Some(c.(bucket := spent.value, queued := c.queued + 1, draining := true))
  }

  function Receive(s: State, id: Id, now: int, message: Message): State {
    if id !in s.clients then s
    else
      var next := Queued(s.clients[id], now, message);
      if next.None? then Disconnect(s, id) else s.(clients := s.clients[id := next.value])
  }

  /** drain takes the next message, or stops. */
  function Drain(s: State, id: Id): State {
    if id !in s.clients || !s.clients[id].draining then s
    else
      var c := s.clients[id];
      s.(clients := s.clients[id := if c.queued > 0 then c.(queued := c.queued - 1) else c.(draining := false)])
  }

  /** The credentials were accepted while the connection was still open. */
  function Authenticated(s: State, id: Id, device: DeviceId): State {
    if id !in s.clients || s.clients[id].session.Some? then s
    else if |Members(s, device)| >= MAX_PER_DEVICE then Disconnect(s, id)
    else Joined(s, id, device)
  }

  /** A presentation was sent; a slower send may finish after a newer one. */
  function Delivered(s: State, id: Id, revision: Revision): State {
    if id !in s.clients || s.clients[id].session.None? then s
    else
      var last := s.clients[id].last;
      if last.None? || Compare(revision, last.value) > 0
      then s.(clients := s.clients[id := s.clients[id].(last := Some(revision))]) else s
  }

  function Finish(s: State, id: Id): State {
    s.(terminating := s.terminating - {id})
  }

  // ---- The invariant ----

  function Group(s: State, device: DeviceId): set<Id> {
    set id | id in s.clients && s.clients[id].session == Some(device)
  }

  /** The index is the open authenticated connections, grouped; no group is empty or too large. */
  ghost predicate Indexed(s: State) {
    && (forall device :: device in s.index ==> s.index[device] == Group(s, device) && 1 <= |s.index[device]| <= MAX_PER_DEVICE)
    && (forall id :: id in s.clients && s.clients[id].session.Some? ==> s.clients[id].session.value in s.index)
  }

  ghost predicate Bounded(s: State) {
    s.clients.Keys !! s.terminating && |s.clients| + |s.terminating| <= MAX_CONNECTIONS
  }

  ghost predicate Valid(s: State) {
    Indexed(s) && Bounded(s)
  }

  lemma MembersAreGroup(s: State, device: DeviceId)
    requires Indexed(s)
    ensures Members(s, device) == Group(s, device) && |Members(s, device)| <= MAX_PER_DEVICE
  {
    if device !in s.index {
      assert Group(s, device) == {};
    }
  }

  /** Groups depend only on which connection has which session. */
  lemma SameSessions(s: State, t: State)
    requires Valid(s) && t.index == s.index && t.terminating <= s.terminating && t.clients.Keys == s.clients.Keys
    requires forall id :: id in s.clients ==> t.clients[id].session == s.clients[id].session
    ensures Valid(t)
  {
    forall device ensures Group(t, device) == Group(s, device) {
    }
    SizeShrinks(t.terminating, s.terminating);
    assert |t.clients| == |t.clients.Keys| == |s.clients|;
  }

  lemma SizeShrinks(a: set<Id>, b: set<Id>)
    requires a <= b
    ensures |a| <= |b|
  {
    assert b == a + (b - a);
  }

  lemma AcceptIndexed(s: State, id: Id, now: int)
    requires Indexed(s) && id !in s.clients
    ensures Indexed(Accept(s, id, now))
  {
    var t := Accept(s, id, now);
    forall device ensures Group(t, device) == Group(s, device) {
    }
  }

  lemma InsertSize<V>(m: map<Id, V>, id: Id, value: V)
    requires id !in m
    ensures |m[id := value]| == |m| + 1
  {
    assert m[id := value].Keys == m.Keys + {id};
  }

  lemma AcceptBounded(s: State, id: Id, now: int)
    requires Bounded(s) && id !in s.clients && id !in s.terminating
    ensures Bounded(Accept(s, id, now))
  {
    if !s.closing && !Full(s) {
      InsertSize(s.clients, id, Connection(None, Bucket(BURST, now), 0, false, None));
    }
  }

  lemma AcceptKeeps(s: State, id: Id, now: int)
    requires Valid(s) && id !in s.clients && id !in s.terminating
    ensures Valid(Accept(s, id, now))
  {
    AcceptIndexed(s, id, now);
    AcceptBounded(s, id, now);
  }

  lemma CleanupGroups(s: State, id: Id, device: DeviceId)
    requires Indexed(s) && id in s.clients
    ensures Group(Cleanup(s, id), device) == Group(s, device) - {id}
  {
  }

  lemma CleanupKeepsIndex(s: State, id: Id)
    requires Indexed(s) && id in s.clients
    ensures Indexed(Cleanup(s, id))
  {
    var t, session := Cleanup(s, id), s.clients[id].session;
    forall device | device in t.index ensures t.index[device] == Group(t, device) && 1 <= |t.index[device]| <= MAX_PER_DEVICE {
      CleanupGroups(s, id, device);
      if session == Some(device) {
        MembersAreGroup(s, device);
        SizeShrinks(t.index[device], s.index[device]);
        assert t.index[device] != {};
      } else {
        assert id !in Group(s, device);
      }
    }
    forall other | other in t.clients && t.clients[other].session.Some? ensures t.clients[other].session.value in t.index {
      var device := s.clients[other].session.value;
      MembersAreGroup(s, device);
      assert other in Group(s, device);
    }
  }

  lemma CleanupKeeps(s: State, id: Id)
    requires Valid(s)
    ensures Valid(Cleanup(s, id))
    ensures id in s.clients ==> |Cleanup(s, id).clients| == |s.clients| - 1 && Cleanup(s, id).clients.Keys == s.clients.Keys - {id}
    ensures Cleanup(s, id).terminating == s.terminating
  {
    if id in s.clients {
      CleanupKeepsIndex(s, id);
      assert Cleanup(s, id).clients.Keys == s.clients.Keys - {id};
      assert s.clients.Keys == (s.clients.Keys - {id}) + {id};
    }
  }

  lemma DisconnectKeeps(s: State, id: Id)
    requires Valid(s)
    ensures Valid(Disconnect(s, id)) && id !in Disconnect(s, id).clients
  {
    if id in s.clients {
      CleanupKeeps(s, id);
      var t, u := Cleanup(s, id), Disconnect(s, id);
      forall device ensures Group(u, device) == Group(t, device) {
      }
    }
  }

  lemma AuthenticatedKeeps(s: State, id: Id, device: DeviceId)
    requires Valid(s)
    ensures Valid(Authenticated(s, id, device))
  {
    if id in s.clients && s.clients[id].session.None? {
      MembersAreGroup(s, device);
      if |Members(s, device)| >= MAX_PER_DEVICE {
        DisconnectKeeps(s, id);
      } else {
        JoinKeeps(s, id, device);
      }
    }
  }

  function Joined(s: State, id: Id, device: DeviceId): State
    requires id in s.clients
  {
    s.(clients := s.clients[id := s.clients[id].(session := Some(device))], index := s.index[device := Members(s, device) + {id}])
  }

  lemma JoinGroups(s: State, id: Id, device: DeviceId, other: DeviceId)
    requires id in s.clients && s.clients[id].session.None?
    ensures Group(Joined(s, id, device), other) == if other == device then Group(s, other) + {id} else Group(s, other)
    ensures id !in Group(s, other)
  {
  }

  lemma JoinIndexed(s: State, id: Id, device: DeviceId)
    requires Indexed(s) && id in s.clients && s.clients[id].session.None? && |Members(s, device)| < MAX_PER_DEVICE
    ensures Indexed(Joined(s, id, device))
  {
    var t := Joined(s, id, device);
    MembersAreGroup(s, device);
    forall d | d in t.index ensures t.index[d] == Group(t, d) && 1 <= |t.index[d]| <= MAX_PER_DEVICE {
      JoinGroups(s, id, device, d);
      if d == device {
        assert |t.index[d]| == |Members(s, device)| + 1;
      } else {
        assert t.index[d] == s.index[d];
      }
    }
  }

  lemma JoinKeeps(s: State, id: Id, device: DeviceId)
    requires Valid(s) && id in s.clients && s.clients[id].session.None? && |Members(s, device)| < MAX_PER_DEVICE
    ensures Valid(Joined(s, id, device))
  {
    JoinIndexed(s, id, device);
    var t := Joined(s, id, device);
    assert t.clients.Keys == s.clients.Keys;
    assert |t.clients| == |t.clients.Keys| && |s.clients| == |s.clients.Keys|;
  }

  lemma ReceiveKeeps(s: State, id: Id, now: int, message: Message)
    requires Valid(s)
    ensures Valid(Receive(s, id, now, message))
  {
    DisconnectKeeps(s, id);
    if Receive(s, id, now, message) != Disconnect(s, id) && id in s.clients {
      SameSessions(s, Receive(s, id, now, message));
    }
  }

  // ---- Every history ----

  datatype Step =
    | Open(id: Id, now: int)
    | Message(id: Id, now: int, message: Message)
    | Take(id: Id)
    | Login(id: Id, device: DeviceId)
    | Sent(id: Id, revision: Revision)
    | Close(id: Id)
    | Drop(id: Id)
    | Closed(id: Id)
    | Stop

  function Next(s: State, step: Step): State {
    match step
    case Open(id, now) => if id in s.clients || id in s.terminating then s else Accept(s, id, now)
    case Message(id, now, message) => Receive(s, id, now, message)
    case Take(id) => Drain(s, id)
    case Login(id, device) => Authenticated(s, id, device)
    case Sent(id, revision) => Delivered(s, id, revision)
    case Close(id) => Cleanup(s, id)
    case Drop(id) => Disconnect(s, id)
    case Closed(id) => Finish(s, id)
    case Stop => s.(closing := true)
  }

  function Run(steps: seq<Step>): State {
    if steps == [] then EMPTY else Next(Run(steps[..|steps| - 1]), steps[|steps| - 1])
  }

  lemma NextKeeps(s: State, step: Step)
    requires Valid(s)
    ensures Valid(Next(s, step))
  {
    match step
    case Open(id, now) =>
      if id !in s.clients && id !in s.terminating {
        AcceptKeeps(s, id, now);
      }
    case Message(id, now, message) => ReceiveKeeps(s, id, now, message);
    case Login(id, device) => AuthenticatedKeeps(s, id, device);
    case Close(id) => CleanupKeeps(s, id);
    case Drop(id) => DisconnectKeeps(s, id);
    case _ => QuietKeeps(s, step);
  }

  /** The steps that leave every connection in its group. */
  lemma QuietKeeps(s: State, step: Step)
    requires Valid(s) && (step.Take? || step.Sent? || step.Closed? || step.Stop?)
    ensures Valid(Next(s, step))
  {
    SameSessions(s, Next(s, step));
  }

  /** In every reachable state the index is exactly the open authenticated connections by device, no
      device has more than four, and open and closing sockets together stay within 1024. */
  lemma {:induction false} AlwaysIndexed(steps: seq<Step>)
    ensures Valid(Run(steps))
    decreases |steps|
  {
    if steps != [] {
      AlwaysIndexed(steps[..|steps| - 1]);
      NextKeeps(Run(steps[..|steps| - 1]), steps[|steps| - 1]);
    }
  }

  /** While a connection is open, the last revision it was given only moves forward, however
      deliveries interleave. */
  lemma LastRevisionGrows(s: State, step: Step, id: Id)
    requires id in s.clients && id in Next(s, step).clients && s.clients[id].last.Some?
    ensures Next(s, step).clients[id].last.Some?
    ensures Compare(s.clients[id].last.value, Next(s, step).clients[id].last.value) <= 0
  {
    if step.Sent? && step.id == id {
      CompareIsLexicographic(step.revision, s.clients[id].last.value, s.clients[id].last.value);
    }
  }

  /** The connection is open throughout. */
  predicate StaysOpen(steps: seq<Step>, from: nat, id: Id)
    requires from <= |steps|
  {
    forall k :: from <= k <= |steps| ==> id in Run(steps[..k]).clients
  }

  lemma {:induction false} LastRevisionNeverDecreases(steps: seq<Step>, from: nat, id: Id)
    requires from <= |steps| && StaysOpen(steps, from, id) && Run(steps[..from]).clients[id].last.Some?
    ensures id in Run(steps).clients && Run(steps).clients[id].last.Some?
    ensures Compare(Run(steps[..from]).clients[id].last.value, Run(steps).clients[id].last.value) <= 0
    decreases |steps|
  {
    assert steps[..|steps|] == steps;
    if from < |steps| {
      var front := steps[..|steps| - 1];
      forall k | from <= k <= |front| ensures id in Run(front[..k]).clients {
        assert front[..k] == steps[..k];
      }
      assert front[..from] == steps[..from];
      LastRevisionNeverDecreases(front, from, id);
      LastRevisionGrows(Run(front), steps[|steps| - 1], id);
      CompareIsLexicographic(Run(steps[..from]).clients[id].last.value, Run(front).clients[id].last.value, Run(steps).clients[id].last.value);
    }
  }

  // ---- The budget over a history ----

  /** When this connection's messages arrived after the first steps. */
  function Times(steps: seq<Step>, from: nat, id: Id): seq<int>
    requires from <= |steps|
    decreases |steps|
  {
    if |steps| == from then []
    else
      var last := steps[|steps| - 1];
      Times(steps[..|steps| - 1], from, id) + if last.Message? && last.id == id then [last.now] else []
  }

  lemma BucketStep(s: State, step: Step, id: Id)
    requires id in s.clients && id in Next(s, step).clients
    ensures if step.Message? && step.id == id then Spend(s.clients[id].bucket, step.now) == Some(Next(s, step).clients[id].bucket)
            else Next(s, step).clients[id].bucket == s.clients[id].bucket
  {
  }

  lemma {:induction false} BucketFollows(steps: seq<Step>, from: nat, id: Id)
    requires from <= |steps| && StaysOpen(steps, from, id)
    ensures id in Run(steps).clients
    ensures SpendAll(Run(steps[..from]).clients[id].bucket, Times(steps, from, id)) == Some(Run(steps).clients[id].bucket)
    decreases |steps|
  {
    assert steps[..|steps|] == steps;
    if from < |steps| {
      var front, last := steps[..|steps| - 1], steps[|steps| - 1];
      forall k | from <= k <= |front| ensures id in Run(front[..k]).clients {
        assert front[..k] == steps[..k];
      }
      assert front[..from] == steps[..from];
      BucketFollows(front, from, id);
      BucketStep(Run(front), last, id);
      var times := Times(front, from, id);
      if last.Message? && last.id == id {
        assert (times + [last.now])[..|times|] == times;
      } else {
        assert times + [] == times;
      }
    }
  }

  predicate Sane(b: Bucket) {
    0 <= b.tokens <= BURST
  }

  lemma StepKeepsSane(s: State, step: Step, id: Id)
    requires id in s.clients && id in Next(s, step).clients && Sane(s.clients[id].bucket)
    ensures Sane(Next(s, step).clients[id].bucket)
  {
    BucketStep(s, step, id);
  }

  lemma OpenedSane(s: State, step: Step, id: Id)
    requires id !in s.clients && id in Next(s, step).clients
    ensures Sane(Next(s, step).clients[id].bucket)
  {
    assert step.Open?;
  }

  lemma {:induction false} BucketsSane(steps: seq<Step>, id: Id)
    requires id in Run(steps).clients
    ensures Sane(Run(steps).clients[id].bucket)
    decreases |steps|
  {
    if steps != [] {
      var front, last := steps[..|steps| - 1], steps[|steps| - 1];
      if id in Run(front).clients {
        BucketsSane(front, id);
        StepKeepsSane(Run(front), last, id);
      } else {
        OpenedSane(Run(front), last, id);
      }
    }
  }

  /** As long as its socket stays open and the clock does not go back, a connection gets at most 20
      messages and 2 per second through. */
  lemma ConnectionBudget(steps: seq<Step>, from: nat, id: Id)
    requires from <= |steps| && StaysOpen(steps, from, id) && Times(steps, from, id) != [] && Monotone(Times(steps, from, id))
    ensures var times := Times(steps, from, id);
            1000 * |times| <= 20 * 1000 + 2 * (times[|times| - 1] - times[0])
  {
    BucketsSane(steps[..from], id);
    BucketFollows(steps, from, id);
    IntervalBudget(Run(steps[..from]).clients[id].bucket, Times(steps, from, id));
  }

  // ---- Queues ----

  predicate QueueOk(c: Connection) {
    c.queued <= MAX_PENDING && (c.session.None? ==> c.queued <= 1 && (c.queued == 1 ==> c.draining))
  }

  lemma MessageKeepsQueue(s: State, id: Id, now: int, message: Message, other: Id)
    requires other in Receive(s, id, now, message).clients
    ensures other in s.clients
    ensures QueueOk(s.clients[other]) ==> QueueOk(Receive(s, id, now, message).clients[other])
  {
  }

  lemma OthersKeepQueue(s: State, step: Step, id: Id)
    requires !step.Message? && id in Next(s, step).clients
    ensures (id in s.clients ==> QueueOk(s.clients[id])) ==> QueueOk(Next(s, step).clients[id])
  {
    match step
    case Login(other, device) =>
    case Drop(other) =>
    case Close(other) =>
    case _ =>
  }

  /** No queue holds more than eight messages, and an unauthenticated connection has sent at most one. */
  lemma {:induction false} QueuesBounded(steps: seq<Step>, id: Id)
    requires id in Run(steps).clients
    ensures QueueOk(Run(steps).clients[id])
    decreases |steps|
  {
    if steps != [] {
      var front, last := steps[..|steps| - 1], steps[|steps| - 1];
      if id in Run(front).clients {
        QueuesBounded(front, id);
      }
      if last.Message? {
        MessageKeepsQueue(Run(front), last.id, last.now, last.message, id);
      } else {
        OthersKeepQueue(Run(front), last, id);
      }
    }
  }

  /** Before its login is finished a connection stays open exactly if what it sends is its one attempt to
      authenticate and a token is left; anything else, such as a second message, ends it. */
  lemma OneAttemptToLogIn(steps: seq<Step>, id: Id, now: int, message: Message)
    requires id in Run(steps).clients && Run(steps).clients[id].session.None?
    ensures var c, u := Run(steps).clients[id], Run(steps + [Step.Message(id, now, message)]);
            && (id in u.clients <==> message.Authenticate? && !c.draining && Spend(c.bucket, now).Some?)
            && (id in u.clients ==> u.clients[id].queued == 1 && u.clients[id].draining)
            && (id !in u.clients ==> id in u.terminating)
  {
    QueuesBounded(steps, id);
    assert (steps + [Step.Message(id, now, message)])[..|steps|] == steps;
  }
}
