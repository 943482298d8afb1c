/** The interaction service object: the rate counters and the command transaction, statement by statement. */
module InteractionService {
  import opened Base
  import opened Interactions

  class Service {
    var devices: map<DeviceId, Device>
    var credentials: map<TokenHash, Credential>
    var surfaces: map<DeviceId, Surface>
    var registry: map<string, string>
    var receipts: map<(DeviceId, string), Receipt>
    var rates: map<DeviceId, Rate>
    var sequences: map<CredentialId, nat>
    var domain: Domain

    function Tables(): World
      reads this
    {
      World(devices, credentials, surfaces, registry, receipts, rates, sequences, domain)
    }

    method ConsumeRate(device: DeviceId, clock: int) returns (allowed: bool)
      modifies this`rates
      ensures allowed == WithinRate(Consumed(RateOf(old(Tables()), device), clock))
      ensures rates == if allowed then old(rates)[device := Consumed(RateOf(old(Tables()), device), clock)] else old(rates)
    {
      var now := Max(clock, 0);
      var minuteCount, secondCount := 1, 1;
      if device in rates {
        var previous := rates[device];
        now := Max(clock, Max(previous.minuteAt, previous.secondAt));
        if previous.minuteAt == Minute(now) {
          minuteCount := previous.minuteCount + 1;
        }
        if previous.secondAt == Second(now) {
          secondCount := previous.secondCount + 1;
        }
      }
      if minuteCount > PER_MINUTE || secondCount > PER_SECOND {
        return false;
      }
      rates := rates[device := Rate(Minute(now), minuteCount, Second(now), secondCount)];
      return true;
    }

    /** Undoes the transaction. */
    method Restore(saved: World)
      requires saved.devices == devices && saved.credentials == credentials && saved.registry == registry
      modifies this
      ensures Tables() == saved
    {
      surfaces, receipts, rates, sequences, domain := saved.surfaces, saved.receipts, saved.rates, saved.sequences, saved.domain;
    }

    /** Runs the handler behind a savepoint: its statements write the tables one after the other, and
        if it does not return, what was written is taken back. */
    method RunHandler(handler: Handler) returns (code: Option<Code>, output: Option<string>, thrown: bool)
      modifies this`domain, this`surfaces
      ensures thrown <==> handler.ending.Fails?
      ensures code == if handler.ending.Conflicts? then Some(StateConflict) else None
      ensures output == if handler.ending.Returns? then Some(handler.ending.output) else None
      ensures handler.ending.Returns? ==> Tables() == Written(old(Tables()), handler.writes)
      ensures !handler.ending.Returns? ==> Tables() == old(Tables())
    {
      var savedDomain, savedSurfaces := domain, surfaces;
      code, output, thrown := None, None, false;
      for i := 0 to |handler.writes|
        invariant Tables() == Written(old(Tables()), handler.writes[..i])
      {
        assert handler.writes[..i + 1][..i] == handler.writes[..i];
        match handler.writes[i]
        case Put(key, value) => domain := domain[key := value];
        case Drop(key) => domain := domain - {key};
        case Show(device, surface) => surfaces := surfaces[device := surface];
      }
      assert handler.writes[..|handler.writes|] == handler.writes;
      match handler.ending
      case Returns(text) =>
        output := Some(text);
      case Conflicts =>
        domain, surfaces, code := savedDomain, savedSurfaces, Some(StateConflict);
      case Fails =>
        domain, surfaces, thrown := savedDomain, savedSurfaces, true;
    }

    method ExecuteCommand(r: Request) returns (response: Response)
      modifies this
      ensures (Tables(), response) == Execute(old(Tables()), r)
    {
      var saved := Tables();
      var credential := Authenticate(saved, r.token, r.authenticatedAt);
      if credential.None? || !Identified(saved, credential.value, r) {
        return Unauthorized;
      }
      var device := credential.value.device;
      var key := (device, r.event.eventId);
      if key in receipts {
        return Answer(Replayed(receipts[key], r));
      }
      var allowed := ConsumeRate(device, r.rateAt);
      if !allowed {
        return RateLimited;
      }
      TryOutcome(saved, r);
      response := Conclude(saved, device, r);
    }

    /** Everything after the rate: an exception or an expired credential undoes the transaction. */
    method Conclude(saved: World, device: DeviceId, r: Request) returns (response: Response)
      requires Tables() == saved.(rates := saved.rates[device := Consumed(RateOf(saved, device), r.rateAt)])
      modifies this
      ensures (Tables(), response) == Outcome(saved, device, r)
    {
      CommittedRated(saved, device, r);
      CommittedKeepsIdentity(saved, device, r);
      var thrown, result := Process(device, r);
      if thrown {
        Restore(saved);
        return Unavailable;
      }
      assert Tables() == Committed(saved, device, r);
      if Authenticate(Tables(), r.token, r.endedAt).None? {
        Restore(saved);
        return Unauthorized;
      }
      return Answer(result);
    }

    /** Screening, the handler and the rows of one new command whose rate is already counted. */
    method Process(device: DeviceId, r: Request) returns (thrown: bool, result: CommandResult)
      modifies this`receipts, this`sequences, this`domain, this`surfaces
      ensures thrown <==> HandlerThrows(old(Tables()), device, r)
      ensures !thrown ==> result == Stored(old(Tables()), device, r)
      ensures !thrown ==> Tables() == Committed(old(Tables()), device, r).(rates := old(rates))
    {
      var code := Screen(Tables(), device, r);
      var output: Option<string> := None;
      thrown := false;
      if code.None? {
        code, output, thrown := RunHandler(r.handler);
        WritesOwnTables(old(Tables()), r.handler.writes);
      }
      result := CommandResult(r.event.eventId, r.commandId, if code.Some? then Rejected else Accepted, r.finishedAt, code, output);
      if thrown {
        return;
      }
      if code.None? && r.event.clientSequence.Some? {
        sequences := sequences[r.event.credentialId := r.event.clientSequence.value];
      }
      receipts := receipts[(device, r.event.eventId) := Receipt(r.event, r.event.credentialId, r.commandId, result)];
    }
  }
}
