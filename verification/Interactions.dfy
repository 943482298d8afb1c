/**
 Commands sent by devices (backend/src/interactions/interaction.service.ts). One command is one
 transaction: it either commits a receipt, its rate and its domain change together, or nothing.
 */
module Interactions {
  import opened Base

  type DeviceId = nat
  type CredentialId = string
  // The token as the database knows it: its hash.
  type TokenHash = string
  // The rows of the domain tables, which only handlers and other services change.
  type Domain = map<string, string>

  const MAX_AGE_MS := 300_000
  const MAX_FUTURE_MS := 30_000
  const PER_MINUTE := 60
  const PER_SECOND := 8

  datatype Credential = Credential(id: CredentialId, device: DeviceId, revoked: bool, expiresAt: Option<int>)

  datatype Device = Device(active: bool, externalId: Option<string>)

  datatype Event = Event(
    eventId: string,
    deviceId: string,
    credentialId: CredentialId,
    publicationId: string,
    revision: string,
    action: string,
    targetId: Option<string>,
    occurredAt: int,
    clientSequence: Option<nat>,
    payload: string)

  datatype Code =
    | Expired | Future | SequenceReplay | NotAllowed | UnknownAction | InvalidPayload | StateConflict | EventConflict

  /** An action the publication offers, with the payload schema it was published for. */
  datatype Permission = Permission(action: string, targetId: Option<string>, schema: string)

  /** The publication revision a device shall show; its actions count only while it is what is rendered. */
  datatype Surface = Surface(publicationId: string, revision: string, rendered: bool, actions: seq<Permission>)

  datatype Status = Accepted | Rejected | Duplicate

  datatype CommandResult = CommandResult(eventId: string, commandId: nat, status: Status, serverTime: int, error: Option<Code>, output: Option<string>)

  /** SHA-256 of the canonical event stands for the event itself. */
  datatype Receipt = Receipt(request: Event, credential: CredentialId, commandId: nat, result: CommandResult)

  datatype Rate = Rate(minuteAt: int, minuteCount: nat, secondAt: int, secondCount: nat)

  datatype World = World(
    devices: map<DeviceId, Device>,
    credentials: map<TokenHash, Credential>,
    surfaces: map<DeviceId, Surface>,
    registry: map<string, string>,
    receipts: map<(DeviceId, string), Receipt>,
    rates: map<DeviceId, Rate>,
    sequences: map<CredentialId, nat>,
    domain: Domain)

  // ---- consumeRate ----

  function Minute(now: int): int {
    now / 60_000 * 60_000
  }

  function Second(now: int): int {
    now / 1000 * 1000
  }

  /** A clock behind the recorded windows is held at them. */
  function RateTime(previous: Option<Rate>, clock: int): int {
    if previous.None? then Max(clock, 0) else Max(clock, Max(previous.value.minuteAt, previous.value.secondAt))
  }

  function Consumed(previous: Option<Rate>, clock: int): Rate {
    var now := RateTime(previous, clock);
    Rate(Minute(now), (if previous.Some? && previous.value.minuteAt == Minute(now) then previous.value.minuteCount else 0) + 1,
         Second(now), (if previous.Some? && previous.value.secondAt == Second(now) then previous.value.secondCount else 0) + 1)
  }

  predicate WithinRate(rate: Rate) {
    rate.minuteCount <= PER_MINUTE && rate.secondCount <= PER_SECOND
  }

  function RateOf(w: World, device: DeviceId): Option<Rate> {
    if device in w.rates then Some(w.rates[device]) else None
  }

  // ---- authenticate ----

  function Authenticate(w: World, token: TokenHash, now: int): Option<Credential> {
    if token !in w.credentials then None
    else
      var c := w.credentials[token];
      if c.revoked || (c.expiresAt.Some? && c.expiresAt.value <= now) then None
      else if c.device !in w.devices || !w.devices[c.device].active || w.devices[c.device].externalId.None? then None
      else Some(c)
  }

  // ---- What the device may ask for ----

  /** The first permission for this action on this target. */
  function Find(actions: seq<Permission>, action: string, targetId: Option<string>): (r: Option<Permission>)
    ensures r.Some? <==> exists i :: 0 <= i < |actions| && Matches(actions[i], action, targetId)
    ensures r.Some? ==> exists i :: 0 <= i < |actions| && actions[i] == r.value && First(actions, i, action, targetId)
  {
    if actions == [] then None
    else if Matches(actions[0], action, targetId) then
      assert First(actions, 0, action, targetId);
      Some(actions[0])
    else
      var rest := Find(actions[1..], action, targetId);
      assert rest.Some? ==> exists i :: 1 <= i < |actions| && actions[i] == rest.value && First(actions, i, action, targetId) by {
        if rest.Some? {
          var i :| 0 <= i < |actions| - 1 && actions[1..][i] == rest.value && First(actions[1..], i, action, targetId);
          assert forall j :: 1 <= j < i + 1 ==> actions[j] == actions[1..][j - 1];
          assert First(actions, i + 1, action, targetId);
        }
      }
      rest
  }

  predicate Matches(p: Permission, action: string, targetId: Option<string>) {
    p.action == action && p.targetId == targetId
  }

  predicate First(actions: seq<Permission>, i: nat, action: string, targetId: Option<string>)
    requires i < |actions|
  {
    Matches(actions[i], action, targetId) && forall j :: 0 <= j < i ==> !Matches(actions[j], action, targetId)
  }

  function Offered(surface: Surface): seq<Permission> {
    if surface.rendered then surface.actions else []
  }

  // ---- The handler and its writes ----

  /** One statement of a handler: a domain row, or what a device shall show (as view.next does). */
  datatype Write = Put(key: string, value: string) | Drop(key: string) | Show(device: DeviceId, surface: Surface)

  /** A handler ends with a valid result, with a domain conflict, or in any other failure, such as an
      invalid result; in each case after some writes. */
  datatype Ending = Returns(output: string) | Conflicts | Fails

  datatype Handler = Handler(writes: seq<Write>, ending: Ending)

  function Wrote(w: World, write: Write): World {
    match write
    case Put(key, value) => w.(domain := w.domain[key := value])
    case Drop(key) => w.(domain := w.domain - {key})
    case Show(device, surface) => w.(surfaces := w.surfaces[device := surface])
  }

  function Written(w: World, writes: seq<Write>): World {
    if writes == [] then w else Wrote(Written(w, writes[..|writes| - 1]), writes[|writes| - 1])
  }

  // ---- The transaction: its statements so far, of which a savepoint keeps the first ones ----

  datatype Change =
    | RateRow(device: DeviceId, rate: Rate)
    | HandlerRow(write: Write)
    | SequenceRow(credential: CredentialId, last: nat)
    | ReceiptRow(key: (DeviceId, string), receipt: Receipt)

  function Changed(w: World, c: Change): World {
    match c
    case RateRow(device, rate) => w.(rates := w.rates[device := rate])
    case HandlerRow(write) => Wrote(w, write)
    case SequenceRow(credential, last) => w.(sequences := w.sequences[credential := last])
    case ReceiptRow(key, receipt) => w.(receipts := w.receipts[key := receipt])
  }

  /** What the transaction reads, and what its commit leaves. */
  function Replay(w: World, log: seq<Change>): World {
    if log == [] then w else Changed(Replay(w, log[..|log| - 1]), log[|log| - 1])
  }

  function Rows(writes: seq<Write>): seq<Change> {
    seq(|writes|, i requires 0 <= i < |writes| => HandlerRow(writes[i]))
  }

  // ---- execute ----

  /** Everything about one execution besides the tables: the clock at each reading, the payload check
      and the handler. */
  datatype Request = Request(
    token: TokenHash,
    event: Event,
    initialDevice: DeviceId,
    authenticatedAt: int,
    rateAt: int,
    agedAt: int,
    finishedAt: int,
    endedAt: int,
    commandId: nat,
    payloadValid: bool,
    handler: Handler)

  datatype Response = Answer(result: CommandResult) | Unauthorized | RateLimited | Unavailable

  /** The checks before the handler, in order. */
  function Screen(w: World, device: DeviceId, r: Request): Option<Code> {
    var age := r.agedAt - r.event.occurredAt;
    if age > MAX_AGE_MS then Some(Expired)
    else if age < -MAX_FUTURE_MS then Some(Future)
    else if r.event.clientSequence.Some? && r.event.credentialId in w.sequences
            && r.event.clientSequence.value <= w.sequences[r.event.credentialId] then Some(SequenceReplay)
    else Permit(w, device, r)
  }

  function Permit(w: World, device: DeviceId, r: Request): Option<Code> {
    if device !in w.surfaces || w.surfaces[device].publicationId != r.event.publicationId
       || w.surfaces[device].revision != r.event.revision then Some(NotAllowed)
    else
      var permission := Find(Offered(w.surfaces[device]), r.event.action, r.event.targetId);
      if permission.None? then Some(NotAllowed)
      else if r.event.action !in w.registry || permission.value.schema != w.registry[r.event.action] then Some(UnknownAction)
      else if !r.payloadValid then Some(InvalidPayload)
      else None
  }

  datatype Attempt = Attempt(log: seq<Change>, code: Option<Code>, output: Option<string>, thrown: bool)

  /** The handler behind a savepoint: if it does not return, its statements are taken back. */
  function Handling(log: seq<Change>, handler: Handler): Attempt {
    var written := log + Rows(handler.writes);
    match handler.ending
    case Returns(output) => Attempt(written, None, Some(output), false)
    case Conflicts => Attempt(written[..|log|], Some(StateConflict), None, false)
    case Fails => Attempt(written[..|log|], None, None, true)
  }

  function Tried(w: World, device: DeviceId, r: Request): Attempt {
    var log := [RateRow(device, Consumed(RateOf(w, device), r.rateAt))];
    var code := Screen(Replay(w, log), device, r);
    if code.Some? then Attempt(log, code, None, false) else Handling(log, r.handler)
  }

  function ResultOf(a: Attempt, r: Request): CommandResult {
    CommandResult(r.event.eventId, r.commandId, if a.code.Some? then Rejected else Accepted, r.finishedAt, a.code, a.output)
  }

  /** All statements of a new command whose handler did not throw. */
  function Statements(a: Attempt, device: DeviceId, r: Request): seq<Change> {
    a.log
    + (if a.code.None? && r.event.clientSequence.Some? then [SequenceRow(r.event.credentialId, r.event.clientSequence.value)] else [])
    + [ReceiptRow((device, r.event.eventId), Receipt(r.event, r.event.credentialId, r.commandId, ResultOf(a, r)))]
  }

  /** The credential speaks for the device and for itself. */
  predicate Identified(w: World, c: Credential, r: Request)
    requires c.device in w.devices
  {
    && c.device == r.initialDevice && w.devices[c.device].externalId == Some(r.event.deviceId)
    && r.event.credentialId == c.id
  }

  function Replayed(receipt: Receipt, r: Request): CommandResult {
    if receipt.request != r.event || receipt.credential != r.event.credentialId
    then CommandResult(r.event.eventId, receipt.commandId, Rejected, r.finishedAt, Some(EventConflict), None)
    else receipt.result.(status := Duplicate)
  }

  function Execute(w: World, r: Request): (World, Response) {
    var c := Authenticate(w, r.token, r.authenticatedAt);
    if c.None? || !Identified(w, c.value, r) then (w, Unauthorized)
    else
      var key := (c.value.device, r.event.eventId);
      if key in w.receipts then (w, Answer(Replayed(w.receipts[key], r)))
      else if !WithinRate(Consumed(RateOf(w, c.value.device), r.rateAt)) then (w, RateLimited)
      else
        var a := Tried(w, c.value.device, r);
        var u := Replay(w, Statements(a, c.value.device, r));
        if a.thrown then (w, Unavailable)
        else if Authenticate(u, r.token, r.endedAt).None? then (w, Unauthorized)
        else (u, Answer(ResultOf(a, r)))
  }

  /** The command is new and commits. */
  predicate Commits(w: World, r: Request) {
    Execute(w, r).1.Answer? && Execute(w, r).1.result.status != Duplicate && Execute(w, r).1.result.error != Some(EventConflict)
  }

  function DeviceOf(w: World, r: Request): DeviceId {
    if r.token in w.credentials then w.credentials[r.token].device else 0
  }

  // ---- What a command commits ----

  function Verdict(w: World, device: DeviceId, r: Request): Option<Code> {
    var code := Screen(w, device, r);
    if code.Some? then code else if r.handler.ending.Conflicts? then Some(StateConflict) else None
  }

  predicate HandlerThrows(w: World, device: DeviceId, r: Request) {
    Screen(w, device, r).None? && r.handler.ending.Fails?
  }

  function Stored(w: World, device: DeviceId, r: Request): CommandResult {
    var code := Verdict(w, device, r);
    CommandResult(r.event.eventId, r.commandId, if code.Some? then Rejected else Accepted, r.finishedAt, code,
           if code.None? && r.handler.ending.Returns? then Some(r.handler.ending.output) else None)
  }

  /** The handler's writes, all or none of them, and the rows of the command itself. */
  function Committed(w: World, device: DeviceId, r: Request): World {
    var accepted := Verdict(w, device, r).None?;
    (if accepted then Written(w, r.handler.writes) else w).(
      receipts := w.receipts[(device, r.event.eventId) := Receipt(r.event, r.event.credentialId, r.commandId, Stored(w, device, r))],
      rates := w.rates[device := Consumed(RateOf(w, device), r.rateAt)],
      sequences := if accepted && r.event.clientSequence.Some?
                   then w.sequences[r.event.credentialId := r.event.clientSequence.value] else w.sequences)
  }

  lemma {:induction false} ReplayAppends(w: World, front: seq<Change>, back: seq<Change>)
    ensures Replay(w, front + back) == Replay(Replay(w, front), back)
    decreases |back|
  {
    if back == [] {
      assert front + back == front;
    } else {
      var log := front + back;
      assert log[..|log| - 1] == front + back[..|back| - 1];
      ReplayAppends(w, front, back[..|back| - 1]);
    }
  }

  lemma {:induction false} ReplayRows(w: World, writes: seq<Write>)
    ensures Replay(w, Rows(writes)) == Written(w, writes)
    decreases |writes|
  {
    if writes != [] {
      assert Rows(writes)[..|writes| - 1] == Rows(writes[..|writes| - 1]);
      ReplayRows(w, writes[..|writes| - 1]);
    }
  }

  /** A handler writes the domain and the surfaces alone. */
  predicate SameElsewhere(w: World, u: World) {
    && u.devices == w.devices && u.credentials == w.credentials && u.registry == w.registry
    && u.receipts == w.receipts && u.rates == w.rates && u.sequences == w.sequences
  }

  lemma WroteOwnTables(w: World, u: World, write: Write)
    requires SameElsewhere(w, u)
    ensures SameElsewhere(w, Wrote(u, write))
  {
  }

  lemma {:induction false} WritesOwnTables(w: World, writes: seq<Write>)
    ensures SameElsewhere(w, Written(w, writes))
    decreases |writes|
  {
    if writes != [] {
      var front, last := writes[..|writes| - 1], writes[|writes| - 1];
      WritesOwnTables(w, front);
      WroteOwnTables(w, Written(w, front), last);
    }
  }

  predicate SameOwn(w: World, v: World) {
    v.domain == w.domain && v.surfaces == w.surfaces
  }

  lemma WroteAlike(w: World, v: World, write: Write)
    requires SameOwn(w, v)
    ensures SameOwn(Wrote(w, write), Wrote(v, write))
  {
  }

  /** What it writes does not depend on the other tables. */
  lemma {:induction false} WritesAlike(w: World, v: World, writes: seq<Write>)
    requires SameOwn(w, v)
    ensures SameOwn(Written(w, writes), Written(v, writes))
    decreases |writes|
  {
    if writes != [] {
      var front, last := writes[..|writes| - 1], writes[|writes| - 1];
      WritesAlike(w, v, front);
      WroteAlike(Written(w, front), Written(v, front), last);
    }
  }

  /** The log an attempt leaves holds the rate and, of the handler's writes, all or none. */
  lemma TriedLeaves(w: World, device: DeviceId, r: Request)
    ensures var a := Tried(w, device, r);
            && a.thrown == HandlerThrows(w, device, r)
            && (!a.thrown ==> ResultOf(a, r) == Stored(w, device, r) && a.code == Verdict(w, device, r))
            && var rated := w.(rates := w.rates[device := Consumed(RateOf(w, device), r.rateAt)]);
               Replay(w, a.log) == if a.code.None? && !a.thrown then Written(rated, r.handler.writes) else rated
  {
    var log := [RateRow(device, Consumed(RateOf(w, device), r.rateAt))];
    var rated := w.(rates := w.rates[device := Consumed(RateOf(w, device), r.rateAt)]);
    assert log[..0] == [];
    assert Replay(w, log) == Changed(Replay(w, []), log[0]) == rated;
    assert Screen(rated, device, r) == Screen(w, device, r);
    assert (log + Rows(r.handler.writes))[..|log|] == log;
    ReplayAppends(w, log, Rows(r.handler.writes));
    ReplayRows(rated, r.handler.writes);
  }

  lemma ReplayOne(w: World, log: seq<Change>, c: Change)
    ensures Replay(w, log + [c]) == Changed(Replay(w, log), c)
  {
    assert (log + [c])[..|log|] == log;
  }

  /** The command's own rows come on top of what the attempt leaves. */
  lemma StatementsOnTop(w: World, a: Attempt, device: DeviceId, r: Request)
    ensures var u := Replay(w, a.log);
            Replay(w, Statements(a, device, r)) == u.(
              receipts := u.receipts[(device, r.event.eventId) := Receipt(r.event, r.event.credentialId, r.commandId, ResultOf(a, r))],
              sequences := if a.code.None? && r.event.clientSequence.Some?
                           then u.sequences[r.event.credentialId := r.event.clientSequence.value] else u.sequences)
  {
    var receipt := ReceiptRow((device, r.event.eventId), Receipt(r.event, r.event.credentialId, r.commandId, ResultOf(a, r)));
    if a.code.None? && r.event.clientSequence.Some? {
      var sequence := SequenceRow(r.event.credentialId, r.event.clientSequence.value);
      ReplayOne(w, a.log, sequence);
      ReplayOne(w, a.log + [sequence], receipt);
    } else {
      assert Statements(a, device, r) == a.log + [receipt];
      ReplayOne(w, a.log, receipt);
    }
  }

  /** The transaction's log commits the handler's writes exactly when the command is accepted. */
  lemma LogCommits(w: World, device: DeviceId, r: Request)
    requires !HandlerThrows(w, device, r)
    ensures Replay(w, Statements(Tried(w, device, r), device, r)) == Committed(w, device, r)
  {
    TriedLeaves(w, device, r);
    var rated := w.(rates := w.rates[device := Consumed(RateOf(w, device), r.rateAt)]);
    WritesOwnTables(w, r.handler.writes);
    WritesOwnTables(rated, r.handler.writes);
    WritesAlike(w, rated, r.handler.writes);
    StatementsOnTop(w, Tried(w, device, r), device, r);
  }

  /** Credentials and devices are not written by a command. */
  lemma CommittedKeepsIdentity(w: World, device: DeviceId, r: Request)
    ensures Committed(w, device, r).credentials == w.credentials && Committed(w, device, r).devices == w.devices
    ensures Committed(w, device, r).registry == w.registry
  {
    WritesOwnTables(w, r.handler.writes);
  }

  /** Counting the rate first changes nothing else about what the command commits. */
  lemma CommittedRated(w: World, device: DeviceId, r: Request)
    ensures var rates := w.rates[device := Consumed(RateOf(w, device), r.rateAt)];
            var rated := w.(rates := rates);
            && HandlerThrows(rated, device, r) == HandlerThrows(w, device, r)
            && Stored(rated, device, r) == Stored(w, device, r)
            && Committed(rated, device, r).(rates := rates) == Committed(w, device, r)
  {
    var rated := w.(rates := w.rates[device := Consumed(RateOf(w, device), r.rateAt)]);
    assert Screen(rated, device, r) == Screen(w, device, r);
    WritesOwnTables(w, r.handler.writes);
    WritesOwnTables(rated, r.handler.writes);
    WritesAlike(w, rated, r.handler.writes);
  }

  // ---- The steps of a history ----

  datatype Step =
    | Command(request: Request)
    | SetCredential(token: TokenHash, credential: Credential)
    | SetDevice(id: DeviceId, device: Device)
    | SetSurface(shown: DeviceId, surface: Option<Surface>)
    | SetRegistry(registry: map<string, string>)
    | SetDomain(domain: Domain)

  const START := World(map[], map[], map[], map[], map[], map[], map[], map[])

  function Next(w: World, step: Step): World {
    match step
    case Command(r) => Execute(w, r).0
    case SetCredential(token, credential) => w.(credentials := w.credentials[token := credential])
    case SetDevice(id, device) => w.(devices := w.devices[id := device])
    case SetSurface(id, surface) =>
      w.(surfaces := if surface.Some? then w.surfaces[id := surface.value] else w.surfaces - {id})
    case SetRegistry(registry) => w.(registry := registry)
    case SetDomain(domain) => w.(domain := domain)
  }

  function Run(steps: seq<Step>): World {
    if steps == [] then START else Next(Run(steps[..|steps| - 1]), steps[|steps| - 1])
  }

  /** Step i is a new command that commits. */
  predicate CommitsAt(steps: seq<Step>, i: nat)
    requires i < |steps|
  {
    steps[i].Command? && Commits(Run(steps[..i]), steps[i].request)
  }

  // ---- One command ----

  /** The command comes from its device, is new and within the rate. */
  predicate Tries(w: World, r: Request) {
    var c := Authenticate(w, r.token, r.authenticatedAt);
    && c.Some? && Identified(w, c.value, r) && (c.value.device, r.event.eventId) !in w.receipts
    && WithinRate(Consumed(RateOf(w, c.value.device), r.rateAt))
  }

  function Outcome(w: World, device: DeviceId, r: Request): (World, Response) {
    if HandlerThrows(w, device, r) then (w, Unavailable)
    else if Authenticate(w, r.token, r.endedAt).None? then (w, Unauthorized)
    else (Committed(w, device, r), Answer(Stored(w, device, r)))
  }

  lemma TryOutcome(w: World, r: Request)
    requires Tries(w, r)
    ensures Execute(w, r) == Outcome(w, DeviceOf(w, r), r)
  {
    var device := DeviceOf(w, r);
    TriedLeaves(w, device, r);
    if !HandlerThrows(w, device, r) {
      LogCommits(w, device, r);
      CommittedKeepsIdentity(w, device, r);
    }
  }

  /** Execution by cases: a command that does not answer or replays leaves the tables alone, and every
      other one leaves what Committed says. */
  lemma ExecuteCases(w: World, r: Request)
    ensures !Commits(w, r) ==> Execute(w, r).0 == w
    ensures Commits(w, r) ==>
              && Tries(w, r) && Authenticate(w, r.token, r.endedAt).Some? && !HandlerThrows(w, DeviceOf(w, r), r)
              && Execute(w, r) == (Committed(w, DeviceOf(w, r), r), Answer(Stored(w, DeviceOf(w, r), r)))
    ensures Execute(w, r).1.Answer? && Execute(w, r).1.result.status == Accepted ==> Commits(w, r)
  {
    if Tries(w, r) {
      TryOutcome(w, r);
    }
  }

  /** Either nothing changes, or a receipt for a fresh event appears with its rate. Unless the command is
      accepted, nothing the handler wrote remains, neither in the domain nor on a device's surface. */
  lemma OneCommand(w: World, r: Request)
    ensures var (u, response) := Execute(w, r);
            var device := DeviceOf(w, r);
            var key := (device, r.event.eventId);
            && (!Commits(w, r) ==> u == w)
            && (Commits(w, r) ==>
                  && key !in w.receipts && u.receipts == w.receipts[key := u.receipts[key]]
                  && response == Answer(u.receipts[key].result) && u.receipts[key].request == r.event
                  && WithinRate(Consumed(RateOf(w, device), r.rateAt))
                  && u.rates == w.rates[device := Consumed(RateOf(w, device), r.rateAt)]
                  && (response.result.status != Accepted ==>
                        u.domain == w.domain && u.surfaces == w.surfaces && u.sequences == w.sequences))
            && (response.Answer? && response.result.status == Accepted ==> Commits(w, r))
  {
    ExecuteCases(w, r);
    WritesOwnTables(w, r.handler.writes);
  }

  /** An accepted command is timely, comes from the device it names, asks for what the publication on
      that device offers in the schema its handler knows, and all its handler's writes are committed. */
  lemma AcceptedCommand(w: World, r: Request)
    requires Commits(w, r) && Execute(w, r).1.result.status == Accepted
    ensures r.handler.ending.Returns? && r.payloadValid
    ensures Execute(w, r).0.domain == Written(w, r.handler.writes).domain
    ensures Execute(w, r).0.surfaces == Written(w, r.handler.writes).surfaces
    ensures Execute(w, r).1.result.output == Some(r.handler.ending.output)
    ensures Permitted(w, DeviceOf(w, r), r.event)
    ensures -30_000 <= r.agedAt - r.event.occurredAt <= 300_000
    ensures Authenticate(w, r.token, r.authenticatedAt).Some? && Authenticate(w, r.token, r.endedAt).Some?
    ensures Authenticate(w, r.token, r.authenticatedAt).value.id == r.event.credentialId
  {
    ExecuteCases(w, r);
    WritesOwnTables(w, r.handler.writes);
    PermitOnlyOffered(w, DeviceOf(w, r), r);
  }

  ghost predicate Permitted(w: World, device: DeviceId, e: Event) {
    && device in w.surfaces && e.action in w.registry
    && var surface := w.surfaces[device];
       && surface.publicationId == e.publicationId && surface.revision == e.revision && surface.rendered
       && exists i :: 0 <= i < |surface.actions| && First(surface.actions, i, e.action, e.targetId)
                      && surface.actions[i].schema == w.registry[e.action]
  }

  /** The lookup lets exactly the offered actions pass. */
  lemma PermitOnlyOffered(w: World, device: DeviceId, r: Request)
    ensures Permit(w, device, r).None? <==> Permitted(w, device, r.event) && r.payloadValid
  {
    if device in w.surfaces {
      var actions := Offered(w.surfaces[device]);
      var found := Find(actions, r.event.action, r.event.targetId);
      if found.Some? {
        var i :| 0 <= i < |actions| && actions[i] == found.value && First(actions, i, r.event.action, r.event.targetId);
        assert forall j :: 0 <= j < |actions| && First(actions, j, r.event.action, r.event.targetId) ==> j == i;
      }
    }
  }

  /** An accepted command's sequence was above the stored one and replaces it. */
  lemma AcceptedSequence(w: World, r: Request)
    requires Commits(w, r) && Execute(w, r).1.result.status == Accepted
    ensures r.event.clientSequence.Some? ==>
              && (r.event.credentialId in w.sequences ==> w.sequences[r.event.credentialId] < r.event.clientSequence.value)
              && Execute(w, r).0.sequences == w.sequences[r.event.credentialId := r.event.clientSequence.value]
    ensures r.event.clientSequence.None? ==> Execute(w, r).0.sequences == w.sequences
  {
    ExecuteCases(w, r);
  }
}
