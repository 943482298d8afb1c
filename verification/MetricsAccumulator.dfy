/**
 The accumulator object and the loops around it: deltas, observation and the combined export of a
 local registry with the samples of other processes.
 */
module MetricsAccumulator {
  import opened Base
  import opened WorkerMetrics

  method RenderDelta(previous: seq<real>, next: seq<real>) returns (delta: Option<seq<real>>)
    requires |previous| == |next|
    ensures delta == if RenderAdvances(previous, next) then Some(Minus(next, previous)) else None
  {
    var gained: seq<real> := [];
    var i := 0;
    while i < |next|
      invariant 0 <= i <= |next| && |gained| == i
      invariant forall j :: 0 <= j < i ==> gained[j] == next[j] - previous[j] >= 0.0
    {
      gained := gained + [next[i] - previous[i]];
      if gained[i] < 0.0 {
        return None;
      }
      i := i + 1;
    }
    assert gained == Minus(next, previous);
    return Some(gained);
  }

  /** The changes found so far are those of all families but the rest, and all valid. */
  ghost predicate Found(found: map<Label, Histogram>, all: map<Label, Histogram>, rest: set<Label>) {
    && rest <= all.Keys && found.Keys == all.Keys - rest
    && (forall key :: key in found ==> found[key] == all[key]) && AllValid(found)
  }

  lemma FoundOneMore(found: map<Label, Histogram>, all: map<Label, Histogram>, rest: set<Label>, key: Label)
    requires Found(found, all, rest) && key in rest && ValidChange(all[key])
    ensures Found(found[key := all[key]], all, rest - {key})
  {
  }

  lemma FoundAll(found: map<Label, Histogram>, all: map<Label, Histogram>)
    requires Found(found, all, {})
    ensures found == all && AllValid(all)
  {
  }

  /** The change of one family, and whether it rules the delta out. */
  method FamilyChange(previous: Sample, next: Sample, key: Label) returns (change: Option<Histogram>)
    requires WellFormed(previous) && WellFormed(next) && key in next.jobs
    ensures change.Some? ==> change.value == Changes(previous, next)[key] && ValidChange(change.value)
    ensures change.None? ==> !AllValid(Changes(previous, next))
  {
    var value := Change(JobAt(previous, key), next.jobs[key]);
    assert value == Changes(previous, next)[key];
    return if ValidChange(value) then Some(value) else None;
  }

  method JobChanges(previous: Sample, next: Sample) returns (changes: Option<map<Label, Histogram>>)
    requires WellFormed(previous) && WellFormed(next)
    ensures changes == if AllValid(Changes(previous, next)) then Some(Changes(previous, next)) else None
  {
    ghost var all := Changes(previous, next);
    var found: map<Label, Histogram> := map[];
    var rest := next.jobs.Keys;
    while rest != {}
      invariant rest <= next.jobs.Keys && Found(found, all, rest)
      decreases rest
    {
      var key :| key in rest;
      var change := FamilyChange(previous, next, key);
      if change.None? {
        return None;
      }
      FoundOneMore(found, all, rest, key);
      found, rest := found[key := change.value], rest - {key};
    }
    FoundAll(found, all);
    return Some(found);
  }

  /** sampleDelta, family by family; it gives up at the first one that regresses. */
  method ComputeDelta(previous: Sample, next: Sample) returns (delta: Option<Sample>)
    requires WellFormed(previous) && WellFormed(next)
    ensures delta == SampleDelta(previous, next)
  {
    var render := RenderDelta(previous.render, next.render);
    if render.None? || !(previous.jobs.Keys <= next.jobs.Keys) {
      return None;
    }
    var changes := JobChanges(previous, next);
    if changes.None? {
      return None;
    }
    return Some(Sample(next.sampledAt, changes.value, render.value));
  }

  class Accumulator {
    var baselines: map<string, Sample>
    var total: Sample

    ghost function Contents(): State
      reads this
    {
      State(baselines, total)
    }

    constructor ()
      ensures Contents() == START && WellFormedState(Contents())
    {
      baselines, total := map[], EMPTY_SAMPLE;
    }

    /** Both fields change together at the very end, so an observation that throws changes nothing. */
    method ObserveReadings(readings: Option<seq<Reading>>, now: int) returns (result: Result<(), Error>)
      requires WellFormedState(Contents())
      modifies this
      ensures WellFormedState(Contents())
      ensures match Observe(old(Contents()), readings, now)
              case Err(e) => result == Err(e) && Contents() == old(Contents())
              case Ok(after) => result.Ok? && Contents() == after
    {
      if readings.None? {
        return Ok(());
      }
      if !CountedTime(now) {
        return Err(InvalidReading);
      }
      if |readings.value| > WORKERS {
        return Err(WorkerLimit);
      }
      var valid := Check(readings.value, now);
      if !valid {
        return Err(InvalidReading);
      }
      var sum := Accumulate(Incoming(readings.value, now));
      if sum.Err? {
        return Err(sum.error);
      }
      baselines, total := sum.value.baselines, sum.value.total.(sampledAt := now);
      return Ok(());
    }

    static method Check(readings: seq<Reading>, now: int) returns (valid: bool)
      ensures valid == ValidReadings(readings, now)
    {
      var owners: set<string> := {};
      var i := 0;
      while i < |readings|
        invariant 0 <= i <= |readings|
        invariant forall j :: 0 <= j < i ==> ValidOwner(readings[j].owner) && ValidRaw(readings[j].sample, now)
        invariant forall j, k :: 0 <= j < k < i ==> readings[j].owner != readings[k].owner
        invariant forall owner :: owner in owners <==> exists j :: 0 <= j < i && readings[j].owner == owner
      {
        var owner := readings[i].owner;
        if !ValidOwner(owner) || owner in owners || !ValidRaw(readings[i].sample, now) {
          return false;
        }
        owners := owners + {owner};
        i := i + 1;
      }
      return true;
    }

    method Accumulate(entries: seq<Entry>) returns (sum: Result<State, Error>)
      requires WellFormedState(Contents()) && GoodEntries(entries)
      ensures match Total(Contents(), entries)
              case Err(e) => sum == Err(e)
              case Ok(after) => sum == Ok(State(Baselines(Contents(), entries), after))
    {
      var next: map<string, Sample> := map[];
      var running := total;
      var i := 0;
      while i < |entries|
        invariant 0 <= i <= |entries| && WellFormed(running)
        invariant Progress(Contents(), entries, i, next, running)
      {
        var owner, sample := entries[i].owner, entries[i].sample;
        var previous := Previous(baselines, owner);
        var after := Absorb(running, previous, sample);
        if after.Err? {
          ProgressEnds(Contents(), entries, i, next, running, after.error);
          return Err(after.error);
        }
        ProgressOne(Contents(), entries, i, next, running, after.value);
        running := after.value;
        next := next[owner := NewBaseline(previous, sample)];
        i := i + 1;
      }
      assert entries[..i] == entries;
      return Ok(State(next, running));
    }

    static method Absorb(running: Sample, previous: Option<Sample>, sample: Sample) returns (after: Result<Sample, Error>)
      requires WellFormed(running) && GoodPrevious(previous) && WellFormed(sample)
      ensures after == AddTo(running, previous, sample)
    {
      if previous.Some? && sample.sampledAt <= previous.value.sampledAt {
        return Ok(running);
      }
      var delta := EMPTY_SAMPLE;
      if previous.Some? {
        var computed := ComputeDelta(previous.value, sample);
        if computed.None? {
          return Ok(running);
        }
        delta := computed.value;
      }
      return Add(Widen(running, sample), delta);
    }
  }

  /** The first entries have been added up without exceeding a limit. */
  ghost predicate Progress(s: State, entries: seq<Entry>, i: nat, next: map<string, Sample>, running: Sample) {
    && WellFormedState(s) && i <= |entries| && GoodEntries(entries[..i])
    && next == Baselines(s, entries[..i]) && Total(s, entries[..i]) == Ok(running)
  }

  lemma GoodPrefix(entries: seq<Entry>, i: nat)
    requires GoodEntries(entries) && i <= |entries|
    ensures GoodEntries(entries[..i])
  {
  }

  lemma ProgressOne(s: State, entries: seq<Entry>, i: nat, next: map<string, Sample>, running: Sample, after: Sample)
    requires i < |entries| && GoodEntries(entries) && Progress(s, entries, i, next, running) && WellFormed(running)
    requires AddTo(running, Previous(s.baselines, entries[i].owner), entries[i].sample) == Ok(after)
    ensures var owner, sample := entries[i].owner, entries[i].sample;
            Progress(s, entries, i + 1, next[owner := NewBaseline(Previous(s.baselines, owner), sample)], after)
  {
    GoodPrefix(entries, i + 1);
    TotalOneMore(s, entries, i);
  }

  lemma ProgressEnds(s: State, entries: seq<Entry>, i: nat, next: map<string, Sample>, running: Sample, e: Error)
    requires i < |entries| && GoodEntries(entries) && Progress(s, entries, i, next, running) && WellFormed(running)
    requires AddTo(running, Previous(s.baselines, entries[i].owner), entries[i].sample) == Err(e)
    ensures Total(s, entries) == Err(e)
  {
    TotalOneMore(s, entries, i);
    FailureStays(s, entries, i + 1);
  }

  lemma TotalOneMore(s: State, entries: seq<Entry>, i: nat)
    requires WellFormedState(s) && GoodEntries(entries) && i < |entries|
    ensures var owner, sample := entries[i].owner, entries[i].sample;
            && Baselines(s, entries[..i + 1]) == Baselines(s, entries[..i])[owner := NewBaseline(Previous(s.baselines, owner), sample)]
            && Total(s, entries[..i + 1]) == match Total(s, entries[..i])
                                             case Err(e) => Err(e)
                                             case Ok(total) => AddTo(total, Previous(s.baselines, owner), sample)
  {
    assert entries[..i + 1][..i] == entries[..i];
  }

  lemma {:induction false} FailureStays(s: State, entries: seq<Entry>, upTo: nat)
    requires WellFormedState(s) && GoodEntries(entries) && upTo <= |entries|
    requires Total(s, entries[..upTo]).Err?
    ensures Total(s, entries) == Total(s, entries[..upTo])
    decreases |entries|
  {
    if upTo < |entries| {
      var front := entries[..|entries| - 1];
      assert front[..upTo] == entries[..upTo];
      FailureStays(s, front, upTo);
    } else {
      assert entries[..upTo] == entries;
    }
  }

  // ---- combineWorkerMetrics ----

  /** Only sums are checked; a job seen for the first time is copied. */
  predicate SumsFit(total: Sample, sum: Sample, sample: Sample)
    requires sample.jobs.Keys <= sum.jobs.Keys
  {
    && (forall i :: 0 <= i < |sum.render| ==> NonNegative(sum.render[i]))
    && forall key :: key in sample.jobs && key in total.jobs ==> JobFits(sum.jobs[key])
  }

  function Merge(total: Sample, sample: Sample): (r: Result<Sample, Error>)
    requires WellFormed(total) && WellFormed(sample)
    ensures r.Ok? ==> WellFormed(r.value)
  {
    if SumsFit(total, Added(total, sample), sample) then Ok(Added(total, sample)) else Err(MetricLimit)
  }

  predicate AllWellFormed(samples: seq<Sample>) {
    forall i :: 0 <= i < |samples| ==> WellFormed(samples[i])
  }

  function MergeAll(local: Sample, samples: seq<Sample>): (r: Result<Sample, Error>)
    requires WellFormed(local) && AllWellFormed(samples)
    ensures r.Ok? ==> WellFormed(r.value)
  {
    if samples == [] then Ok(local)
    else
      match MergeAll(local, samples[..|samples| - 1])
      case Err(e) => Err(e)
      case Ok(total) => Merge(total, samples[|samples| - 1])
  }

  method Combine(local: Sample, samples: seq<Sample>) returns (result: Result<Sample, Error>)
    requires WellFormed(local) && AllWellFormed(samples)
    ensures result == if |samples| > WORKERS then Err(WorkerLimit) else MergeAll(local, samples)
  {
    if |samples| > WORKERS {
      return Err(WorkerLimit);
    }
    result := Ok(local);
    var i := 0;
    while i < |samples| && result.Ok?
      invariant 0 <= i <= |samples|
      invariant result == MergeAll(local, samples[..i])
    {
      assert samples[..i + 1][..i] == samples[..i];
      result := Merge(result.value, samples[i]);
      i := i + 1;
    }
    if result.Err? {
      MergeFailureStays(local, samples, i);
    } else {
      assert samples[..i] == samples;
    }
  }

  lemma {:induction false} MergeFailureStays(local: Sample, samples: seq<Sample>, upTo: nat)
    requires WellFormed(local) && AllWellFormed(samples) && upTo <= |samples|
    requires MergeAll(local, samples[..upTo]).Err?
    ensures MergeAll(local, samples) == MergeAll(local, samples[..upTo])
    decreases |samples|
  {
    if upTo < |samples| {
      var front := samples[..|samples| - 1];
      assert front[..upTo] == samples[..upTo];
      MergeFailureStays(local, front, upTo);
    } else {
      assert samples[..upTo] == samples;
    }
  }

  // ---- What the combination means ----

  function SumAt(local: Sample, samples: seq<Sample>, c: Coordinate): real {
    if samples == [] then Value(local, c)
    else SumAt(local, samples[..|samples| - 1], c) + Value(samples[|samples| - 1], c)
  }

  ghost predicate Bounded(s: Sample) {
    forall c :: Value(s, c) <= MAX_SAFE as real
  }

  lemma ValueNonNegative(s: Sample, c: Coordinate)
    requires WellFormed(s)
    ensures Value(s, c) >= 0.0
  {
  }

  lemma BoundedJobsFit(s: Sample, key: Label)
    requires WellFormed(s) && Bounded(s)
    ensures JobFits(JobAt(s, key))
  {
    assert Value(s, CountOf(key)) <= MAX_SAFE as real && Value(s, SumOf(key)) <= MAX_SAFE as real;
    forall i | 0 <= i < BUCKETS ensures NonNegative(JobAt(s, key).buckets[i]) {
      assert Value(s, BucketOf(key, i)) <= MAX_SAFE as real;
    }
  }

  lemma FittingIsBounded(total: Sample, sample: Sample)
    requires WellFormed(total) && WellFormed(sample) && Bounded(total) && Bounded(sample) && Merge(total, sample).Ok?
    ensures Bounded(Added(total, sample))
  {
    forall c: Coordinate ensures Value(Added(total, sample), c) <= MAX_SAFE as real {
      AddedValue(total, sample, c);
      ValueNonNegative(total, c);
      assert Value(total, c) <= MAX_SAFE as real && Value(sample, c) <= MAX_SAFE as real;
      if !c.RenderOf? && c.key in sample.jobs && c.key in total.jobs {
        assert JobFits(Added(total, sample).jobs[c.key]);
      }
    }
  }

  lemma BoundedFits(total: Sample, sample: Sample)
    requires WellFormed(total) && WellFormed(sample) && Bounded(Added(total, sample))
    ensures Merge(total, sample).Ok?
  {
    var sum := Added(total, sample);
    forall i | 0 <= i < RENDERS ensures NonNegative(sum.render[i]) {
      assert Value(sum, RenderOf(i)) <= MAX_SAFE as real;
    }
    forall key | key in sample.jobs ensures JobFits(sum.jobs[key]) {
      BoundedJobsFit(sum, key);
    }
  }

  ghost predicate AllSafe(local: Sample, samples: seq<Sample>) {
    forall c :: SumAt(local, samples, c) <= MAX_SAFE as real
  }

  ghost predicate IsSum(total: Sample, local: Sample, samples: seq<Sample>) {
    forall c :: Value(total, c) == SumAt(local, samples, c)
  }

  lemma FewerAreSafe(local: Sample, samples: seq<Sample>)
    requires samples != [] && AllWellFormed(samples) && AllSafe(local, samples)
    ensures AllSafe(local, samples[..|samples| - 1])
  {
    var front := samples[..|samples| - 1];
    forall c: Coordinate ensures SumAt(local, front, c) <= MAX_SAFE as real {
      ValueNonNegative(samples[|samples| - 1], c);
      assert SumAt(local, samples, c) <= MAX_SAFE as real;
    }
  }

  lemma CombineStep(local: Sample, samples: seq<Sample>, total: Sample)
    requires samples != [] && WellFormed(total) && WellFormed(samples[|samples| - 1]) && Bounded(samples[|samples| - 1])
    requires Bounded(total) && IsSum(total, local, samples[..|samples| - 1])
    ensures var r := Merge(total, samples[|samples| - 1]);
            && (r.Ok? <==> AllSafe(local, samples))
            && (r.Ok? ==> IsSum(r.value, local, samples))
  {
    var last := samples[|samples| - 1];
    var sum := Added(total, last);
    forall c: Coordinate ensures Value(sum, c) == SumAt(local, samples, c) {
      AddedValue(total, last, c);
      assert Value(total, c) == SumAt(local, samples[..|samples| - 1], c);
    }
    if Merge(total, last).Ok? {
      FittingIsBounded(total, last);
      forall c: Coordinate ensures SumAt(local, samples, c) <= MAX_SAFE as real {
        assert Value(sum, c) <= MAX_SAFE as real;
      }
    } else if AllSafe(local, samples) {
      forall c: Coordinate ensures Value(sum, c) <= MAX_SAFE as real {
        assert SumAt(local, samples, c) <= MAX_SAFE as real;
      }
      BoundedFits(total, last);
      assert false;
    }
  }

  /** The combination succeeds exactly when every coordinate's sum over all processes is a safe
      number, and then it is that sum. */
  lemma {:induction false} CombinedIsSum(local: Sample, samples: seq<Sample>)
    requires WellFormed(local) && Bounded(local) && AllWellFormed(samples)
    requires forall i :: 0 <= i < |samples| ==> Bounded(samples[i])
    ensures MergeAll(local, samples).Ok? <==> AllSafe(local, samples)
    ensures MergeAll(local, samples).Ok? ==> IsSum(MergeAll(local, samples).value, local, samples)
    decreases |samples|
  {
    if samples == [] {
      assert IsSum(local, local, samples);
      forall c: Coordinate ensures SumAt(local, samples, c) <= MAX_SAFE as real {
        assert Value(local, c) <= MAX_SAFE as real;
      }
    } else {
      var front := samples[..|samples| - 1];
      CombinedIsSum(local, front);
      if MergeAll(local, front).Ok? {
        SumIsBounded(MergeAll(local, front).value, local, front);
        CombineStep(local, samples, MergeAll(local, front).value);
      } else if AllSafe(local, samples) {
        FewerAreSafe(local, samples);
        assert false;
      }
    }
  }

  lemma SumIsBounded(total: Sample, local: Sample, samples: seq<Sample>)
    requires IsSum(total, local, samples) && AllSafe(local, samples)
    ensures Bounded(total)
  {
    forall c: Coordinate ensures Value(total, c) <= MAX_SAFE as real {
      assert SumAt(local, samples, c) <= MAX_SAFE as real;
    }
  }
}
