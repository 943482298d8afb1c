/**
 Interaction commands over every history: retries in any order, clocks that jump either way,
 credentials that expire or are revoked, and anything other services do to the domain.
 */
module InteractionRuns {
  import opened Base
  import opened Interactions

  // ---- Receipts ----

  lemma ReceiptStep(w: World, step: Step, key: (DeviceId, string))
    requires key in w.receipts
    ensures key in Next(w, step).receipts && Next(w, step).receipts[key] == w.receipts[key]
  {
    if step.Command? {
      OneCommand(w, step.request);
    }
  }

  lemma {:induction false} ReceiptsStay(steps: seq<Step>, upTo: nat, key: (DeviceId, string))
    requires upTo <= |steps| && key in Run(steps[..upTo]).receipts
    ensures key in Run(steps).receipts && Run(steps).receipts[key] == Run(steps[..upTo]).receipts[key]
    decreases |steps|
  {
    if upTo == |steps| {
      assert steps[..upTo] == steps;
    } else {
      var front := steps[..|steps| - 1];
      assert front[..upTo] == steps[..upTo];
      ReceiptsStay(front, upTo, key);
      ReceiptStep(Run(front), steps[|steps| - 1], key);
    }
  }

  /** A handler's effects commit at most once per device and event id. */
  lemma CommitsOnce(steps: seq<Step>, i: nat, j: nat)
    requires i < |steps| && j < |steps| && CommitsAt(steps, i) && CommitsAt(steps, j)
    requires DeviceOf(Run(steps[..i]), steps[i].request) == DeviceOf(Run(steps[..j]), steps[j].request)
    requires steps[i].request.event.eventId == steps[j].request.event.eventId
    ensures i == j
  {
    if i < j {
      NotAgain(steps, i, j);
    } else if j < i {
      NotAgain(steps, j, i);
    }
  }

  lemma NotAgain(steps: seq<Step>, i: nat, j: nat)
    requires i < j < |steps| && CommitsAt(steps, i) && steps[j].Command?
    requires DeviceOf(Run(steps[..i]), steps[i].request) == DeviceOf(Run(steps[..j]), steps[j].request)
    requires steps[i].request.event.eventId == steps[j].request.event.eventId
    ensures !CommitsAt(steps, j)
  {
    var w, r := Run(steps[..i]), steps[i].request;
    OneCommand(w, r);
    assert steps[..i + 1][..i] == steps[..i] && steps[..j][..i + 1] == steps[..i + 1];
    ReceiptsStay(steps[..j], i + 1, (DeviceOf(w, r), r.event.eventId));
    OneCommand(Run(steps[..j]), steps[j].request);
  }

  /** However often and however late the same event is sent, it gets the stored result and changes
      nothing; another event under its id is refused and changes nothing either. */
  lemma ReplayForever(steps: seq<Step>, i: nat, again: Request)
    requires i < |steps| && CommitsAt(steps, i)
    requires var w, u := Run(steps[..i]), Run(steps);
             && again.event.eventId == steps[i].request.event.eventId
             && Authenticate(u, again.token, again.authenticatedAt).Some?
             && Identified(u, Authenticate(u, again.token, again.authenticatedAt).value, again)
             && DeviceOf(u, again) == DeviceOf(w, steps[i].request)
    ensures var w, u := Run(steps[..i]), Run(steps);
            var first := Execute(w, steps[i].request).1.result;
            && Execute(u, again).0 == u
            && (again.event == steps[i].request.event ==> Execute(u, again).1 == Answer(first.(status := Duplicate)))
            && (again.event != steps[i].request.event ==>
                  Execute(u, again).1.Answer? && Execute(u, again).1.result.error == Some(EventConflict)
                  && Execute(u, again).1.result.commandId == first.commandId)
  {
    var w, r := Run(steps[..i]), steps[i].request;
    FirstReceipt(steps, i);
    StoredUnderItsCredential(w, r);
    ReplayAnswers(Run(steps), again);
  }

  /** The receipt of a committed command is what any later state holds under its key. */
  lemma FirstReceipt(steps: seq<Step>, i: nat)
    requires i < |steps| && CommitsAt(steps, i)
    ensures var w, r := Run(steps[..i]), steps[i].request;
            var key := (DeviceOf(w, r), r.event.eventId);
            && key in Run(steps).receipts && key in Execute(w, r).0.receipts
            && Run(steps).receipts[key] == Execute(w, r).0.receipts[key]
            && Execute(w, r).1 == Answer(Run(steps).receipts[key].result) && Run(steps).receipts[key].request == r.event
  {
    var w, r := Run(steps[..i]), steps[i].request;
    OneCommand(w, r);
    assert steps[..i + 1][..i] == steps[..i];
    ReceiptsStay(steps, i + 1, (DeviceOf(w, r), r.event.eventId));
  }

  lemma ReplayAnswers(u: World, again: Request)
    requires Authenticate(u, again.token, again.authenticatedAt).Some?
    requires Identified(u, Authenticate(u, again.token, again.authenticatedAt).value, again)
    requires (DeviceOf(u, again), again.event.eventId) in u.receipts
    ensures Execute(u, again) == (u, Answer(Replayed(u.receipts[(DeviceOf(u, again), again.event.eventId)], again)))
  {
  }

  lemma StoredUnderItsCredential(w: World, r: Request)
    requires Commits(w, r)
    ensures var receipt := Execute(w, r).0.receipts[(DeviceOf(w, r), r.event.eventId)];
            receipt.credential == receipt.request.credentialId && receipt.commandId == r.commandId == receipt.result.commandId
  {
    ExecuteCases(w, r);
  }

  // ---- Rates ----

  /** The window starts of the committed commands of one device, oldest first. */
  function Admissions(steps: seq<Step>, device: DeviceId): seq<(int, int)> {
    if steps == [] then []
    else
      var front, last := steps[..|steps| - 1], steps[|steps| - 1];
      Admissions(front, device) + Admitted(Run(front), last, device)
  }

  function Admitted(w: World, step: Step, device: DeviceId): seq<(int, int)> {
    if step.Command? && Commits(w, step.request) && DeviceOf(w, step.request) == device then
      var rate := Consumed(RateOf(w, device), step.request.rateAt);
      [(rate.minuteAt, rate.secondAt)]
    else []
  }

  function InMinute(log: seq<(int, int)>, minute: int): nat {
    if log == [] then 0 else InMinute(log[..|log| - 1], minute) + if log[|log| - 1].0 == minute then 1 else 0
  }

  function InSecond(log: seq<(int, int)>, second: int): nat {
    if log == [] then 0 else InSecond(log[..|log| - 1], second) + if log[|log| - 1].1 == second then 1 else 0
  }

  /** The windows never go back, none is overfull, and the stored counters are those of the latest. */
  ghost predicate RateOk(log: seq<(int, int)>, rate: Option<Rate>) {
    && (forall i, j :: 0 <= i < j < |log| ==> log[i].0 <= log[j].0 && log[i].1 <= log[j].1)
    && (forall minute :: InMinute(log, minute) <= PER_MINUTE)
    && (forall second :: InSecond(log, second) <= PER_SECOND)
    && (rate.None? ==> log == [])
    && (rate.Some? ==>
          && log != [] && log[|log| - 1] == (rate.value.minuteAt, rate.value.secondAt)
          && rate.value.minuteCount == InMinute(log, rate.value.minuteAt)
          && rate.value.secondCount == InSecond(log, rate.value.secondAt))
  }

  lemma {:induction false} LaterMinute(log: seq<(int, int)>, minute: int)
    requires forall i :: 0 <= i < |log| ==> log[i].0 < minute
    ensures InMinute(log, minute) == 0
    decreases |log|
  {
    if log != [] {
      LaterMinute(log[..|log| - 1], minute);
    }
  }

  lemma {:induction false} LaterSecond(log: seq<(int, int)>, second: int)
    requires forall i :: 0 <= i < |log| ==> log[i].1 < second
    ensures InSecond(log, second) == 0
    decreases |log|
  {
    if log != [] {
      LaterSecond(log[..|log| - 1], second);
    }
  }

  /** Rounding down keeps the order, so the held clock never re-enters an older window. */
  lemma WindowsMoveOn(previous: Rate, clock: int)
    ensures previous.minuteAt == Minute(previous.minuteAt) ==> previous.minuteAt <= Minute(RateTime(Some(previous), clock))
    ensures previous.secondAt == Second(previous.secondAt) ==> previous.secondAt <= Second(RateTime(Some(previous), clock))
  {
    var now := RateTime(Some(previous), clock);
    assert previous.minuteAt / 60_000 <= now / 60_000;
    assert previous.secondAt / 1000 <= now / 1000;
  }

  predicate Aligned(rate: Option<Rate>) {
    rate.Some? ==> rate.value.minuteAt == Minute(rate.value.minuteAt) && rate.value.secondAt == Second(rate.value.secondAt)
  }

  lemma ConsumedAligned(previous: Option<Rate>, clock: int)
    ensures Aligned(Some(Consumed(previous, clock)))
  {
    var now := RateTime(previous, clock);
    assert Minute(Minute(now)) == Minute(now) && Second(Second(now)) == Second(now);
  }

  lemma AdmitOne(log: seq<(int, int)>, previous: Option<Rate>, clock: int)
    requires RateOk(log, previous) && Aligned(previous) && WithinRate(Consumed(previous, clock))
    ensures var rate := Consumed(previous, clock);
            RateOk(log + [(rate.minuteAt, rate.secondAt)], Some(rate))
  {
    var rate := Consumed(previous, clock);
    var entry := (rate.minuteAt, rate.secondAt);
    var longer := log + [entry];
    assert longer[..|log|] == log;
    if previous.Some? {
      WindowsMoveOn(previous.value, clock);
      if previous.value.minuteAt < rate.minuteAt {
        LaterMinute(log, rate.minuteAt);
      }
      if previous.value.secondAt < rate.secondAt {
        LaterSecond(log, rate.secondAt);
      }
    }
    assert InMinute(longer, rate.minuteAt) == rate.minuteCount && InSecond(longer, rate.secondAt) == rate.secondCount;
    forall minute ensures InMinute(longer, minute) <= PER_MINUTE {
      assert minute != rate.minuteAt ==> InMinute(longer, minute) == InMinute(log, minute);
    }
    forall second ensures InSecond(longer, second) <= PER_SECOND {
      assert second != rate.secondAt ==> InSecond(longer, second) == InSecond(log, second);
    }
  }

  /** A step moves the stored counters of a device exactly when it admits a command of it. */
  lemma RateStep(w: World, step: Step, device: DeviceId)
    ensures RateOf(Next(w, step), device)
         == if Admitted(w, step, device) == [] then RateOf(w, device) else Some(Consumed(RateOf(w, device), step.request.rateAt))
    ensures Admitted(w, step, device) != [] ==> WithinRate(Consumed(RateOf(w, device), step.request.rateAt))
  {
    if step.Command? {
      OneCommand(w, step.request);
    }
  }

  lemma {:induction false} RatesHold(steps: seq<Step>, device: DeviceId)
    ensures RateOk(Admissions(steps, device), RateOf(Run(steps), device)) && Aligned(RateOf(Run(steps), device))
    decreases |steps|
  {
    if steps != [] {
      var front, last := steps[..|steps| - 1], steps[|steps| - 1];
      var log, rate := Admissions(front, device), RateOf(Run(front), device);
      RatesHold(front, device);
      RateStep(Run(front), last, device);
      assert Run(steps) == Next(Run(front), last) && Admissions(steps, device) == log + Admitted(Run(front), last, device);
      if Admitted(Run(front), last, device) == [] {
        assert Admissions(steps, device) == log;
      } else {
        AdmitOne(log, rate, last.request.rateAt);
        ConsumedAligned(rate, last.request.rateAt);
      }
    }
  }

  /** For any clock readings: at most 60 new commands in any minute and 8 in any second, and a window
      that was left is never entered again. */
  lemma RateWindows(steps: seq<Step>, device: DeviceId, i: nat, j: nat, minute: int, second: int)
    requires i <= j < |Admissions(steps, device)|
    ensures var log := Admissions(steps, device);
            && InMinute(log, minute) <= 60 && InSecond(log, second) <= 8
            && log[i].0 <= log[j].0 && log[i].1 <= log[j].1
  {
    RatesHold(steps, device);
  }

  // ---- Sequences ----

  /** The client sequences a credential got accepted, oldest first. */
  function AcceptedSequences(steps: seq<Step>, credential: CredentialId): seq<nat> {
    if steps == [] then []
    else
      var front, last := steps[..|steps| - 1], steps[|steps| - 1];
      AcceptedSequences(front, credential) + NewSequence(Run(front), last, credential)
  }

  function NewSequence(w: World, step: Step, credential: CredentialId): seq<nat> {
    if step.Command? && Commits(w, step.request) && Execute(w, step.request).1.result.status == Accepted
       && step.request.event.credentialId == credential && step.request.event.clientSequence.Some?
    then [step.request.event.clientSequence.value] else []
  }

  ghost predicate SequenceOk(log: seq<nat>, w: World, credential: CredentialId) {
    && (forall i, j :: 0 <= i < j < |log| ==> log[i] < log[j])
    && (log == [] <==> credential !in w.sequences)
    && (log != [] ==> log[|log| - 1] == w.sequences[credential])
  }

  /** A step moves a credential's stored sequence exactly when it accepts a greater one from it. */
  lemma SequenceStep(w: World, step: Step, credential: CredentialId)
    ensures var taken := NewSequence(w, step, credential);
            var u := Next(w, step);
            && (taken == [] ==> (credential in u.sequences <==> credential in w.sequences)
                                && (credential in w.sequences ==> u.sequences[credential] == w.sequences[credential]))
            && (taken != [] ==> credential in u.sequences && u.sequences[credential] == taken[0]
                                && (credential in w.sequences ==> w.sequences[credential] < taken[0]))
  {
    if step.Command? {
      OneCommand(w, step.request);
      if Commits(w, step.request) && Execute(w, step.request).1.result.status == Accepted {
        AcceptedSequence(w, step.request);
      }
    }
  }

  lemma SequenceStepKeeps(log: seq<nat>, w: World, step: Step, credential: CredentialId)
    requires SequenceOk(log, w, credential)
    ensures SequenceOk(log + NewSequence(w, step, credential), Next(w, step), credential)
  {
    SequenceStep(w, step, credential);
    var taken := NewSequence(w, step, credential);
    if taken == [] {
      assert log + taken == log;
    } else {
      var longer := log + taken;
      assert |longer| == |log| + 1 && longer[..|log|] == log && longer[|log|] == taken[0];
      assert forall i :: 0 <= i < |log| ==> log[i] <= log[|log| - 1];
    }
  }

  /** Accepted client sequences strictly increase; the last one is what is stored. */
  lemma {:induction false} SequencesIncrease(steps: seq<Step>, credential: CredentialId)
    ensures SequenceOk(AcceptedSequences(steps, credential), Run(steps), credential)
    decreases |steps|
  {
    if steps != [] {
      var front, last := steps[..|steps| - 1], steps[|steps| - 1];
      SequencesIncrease(front, credential);
      SequenceStepKeeps(AcceptedSequences(front, credential), Run(front), last, credential);
    }
  }
}
