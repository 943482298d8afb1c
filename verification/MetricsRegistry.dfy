/**
 The registry every worker samples (backend/src/observability/metrics-registry.ts): job histograms
 with cumulative buckets and render counters that only ever grow.
 */
module MetricsRegistry {
  import opened Base
  import opened WorkerMetrics

  // Milliseconds: the finite bucket bounds, and the longest duration that is accepted.
  const BOUNDS: seq<real> := [5.0, 10.0, 25.0, 50.0, 100.0, 250.0, 500.0, 1_000.0, 2_000.0, 5_000.0, 10_000.0, 20_000.0]
  const MAX_DURATION_MS := 86_400_000.0

  datatype Record = Job(key: Label, milliseconds: real) | Render(result: nat)

  datatype Failure = InvalidMetric | Limit

  predicate InBucket(i: nat, milliseconds: real) {
    i == |BOUNDS| || (i < |BOUNDS| && milliseconds <= BOUNDS[i])
  }

  function Incremented(h: Histogram, milliseconds: real): (next: Histogram)
    requires |h.buckets| == BUCKETS
    ensures |next.buckets| == BUCKETS
  {
    Histogram(h.count + 1.0, h.sum + milliseconds / 1000.0,
              seq(BUCKETS, i requires 0 <= i < BUCKETS => h.buckets[i] + if InBucket(i, milliseconds) then 1.0 else 0.0))
  }

  predicate WithinLimit(h: Histogram) {
    && h.count <= MAX_SAFE as real && h.sum <= MAX_SAFE as real
    && forall i :: 0 <= i < |h.buckets| ==> h.buckets[i] <= MAX_SAFE as real
  }

  /** recordJob and recordRender: validated, then the whole family is replaced, or nothing is. */
  function Recorded(r: Sample, record: Record): Result<Sample, Failure>
    requires WellFormed(r)
  {
    match record
    case Job(key, milliseconds) =>
      if !(key.queue < QUEUES && key.outcome < OUTCOMES) || !(0.0 <= milliseconds <= MAX_DURATION_MS) then Err(InvalidMetric)
      else if !WithinLimit(Incremented(JobAt(r, key), milliseconds)) then Err(Limit)
      else Ok(r.(jobs := r.jobs[key := Incremented(JobAt(r, key), milliseconds)]))
    case Render(result) =>
      if result >= RENDERS then Err(InvalidMetric)
      else if r.render[result] + 1.0 > MAX_SAFE as real then Err(Limit)
      else Ok(r.(render := r.render[result := r.render[result] + 1.0]))
  }

  function Next(r: Sample, record: Record): (after: Sample)
    requires WellFormed(r)
    ensures WellFormed(after)
  {
    BucketsNest();
    var next := Recorded(r, record);
    if next.Ok? then next.value else r
  }

  lemma BucketsNest()
    ensures |BOUNDS| == BUCKETS - 1
    ensures forall i, j :: 0 <= i < j < |BOUNDS| ==> BOUNDS[i] <= BOUNDS[j]
  {
  }

  function Run(r: Sample, records: seq<Record>): (after: Sample)
    requires WellFormed(r)
    ensures WellFormed(after)
  {
    if records == [] then r else Next(Run(r, records[..|records| - 1]), records[|records| - 1])
  }

  // ---- What the numbers mean ----

  /** How many accepted records of a label lasted no longer than a bound. */
  function Tally(r: Sample, records: seq<Record>, key: Label, i: nat): nat
    requires WellFormed(r)
  {
    if records == [] then 0
    else
      var front, last := records[..|records| - 1], records[|records| - 1];
      Tally(r, front, key, i)
      + if last.Job? && last.key == key && Recorded(Run(r, front), last).Ok? && InBucket(i, last.milliseconds) then 1 else 0
  }

  /** Each bucket counts the accepted durations up to its bound; the last one and the count, all. */
  lemma {:induction false} BucketsTally(r: Sample, records: seq<Record>, key: Label, i: nat)
    requires WellFormed(r) && i < BUCKETS
    ensures Value(Run(r, records), BucketOf(key, i)) == Value(r, BucketOf(key, i)) + Tally(r, records, key, i) as real
    ensures Value(Run(r, records), CountOf(key)) == Value(r, CountOf(key)) + Tally(r, records, key, BUCKETS - 1) as real
    decreases |records|
  {
    if records != [] {
      var front := records[..|records| - 1];
      BucketsTally(r, front, key, i);
      TallyStep(r, records, key, i);
      TallyStep(r, records, key, BUCKETS - 1);
    }
  }

  lemma TallyStep(r: Sample, records: seq<Record>, key: Label, i: nat)
    requires WellFormed(r) && records != [] && i < BUCKETS
    ensures var front := records[..|records| - 1];
            Value(Run(r, records), BucketOf(key, i)) - Value(Run(r, front), BucketOf(key, i))
            == (Tally(r, records, key, i) - Tally(r, front, key, i)) as real
  {
  }

  // ---- Two snapshots ----

  /** Nothing a registry records makes a later snapshot regress. */
  ghost predicate Grew(a: Sample, b: Sample) {
    && |a.render| == |b.render| == RENDERS && (forall i :: 0 <= i < RENDERS ==> a.render[i] <= b.render[i])
    && a.jobs.Keys <= b.jobs.Keys
    && forall key :: JobGrew(JobAt(a, key), JobAt(b, key))
  }

  predicate JobGrew(a: Histogram, b: Histogram) {
    && |a.buckets| == |b.buckets| == BUCKETS
    && a.count <= b.count && a.sum <= b.sum && (a.count == b.count ==> a.sum == b.sum)
    && (forall i :: 0 <= i < BUCKETS ==> a.buckets[i] <= b.buckets[i])
    && forall i, j :: 0 <= i < j < BUCKETS ==> b.buckets[i] - a.buckets[i] <= b.buckets[j] - a.buckets[j]
  }

  lemma JobGrewTransitive(a: Histogram, b: Histogram, milliseconds: real)
    requires JobGrew(a, b) && milliseconds >= 0.0
    ensures JobGrew(a, Incremented(b, milliseconds))
  {
    BucketsNest();
    var c := Incremented(b, milliseconds);
    forall i, j | 0 <= i < j < BUCKETS
      ensures c.buckets[i] - a.buckets[i] <= c.buckets[j] - a.buckets[j]
    {
      assert b.buckets[i] - a.buckets[i] <= b.buckets[j] - a.buckets[j];
    }
  }

  lemma NextGrows(a: Sample, r: Sample, record: Record)
    requires WellFormed(r) && Grew(a, r)
    ensures Grew(a, Next(r, record))
  {
    if record.Job? && Recorded(r, record).Ok? {
      assert JobGrew(JobAt(a, record.key), JobAt(r, record.key));
      JobGrewTransitive(JobAt(a, record.key), JobAt(r, record.key), record.milliseconds);
      var u := Next(r, record);
      forall key ensures JobGrew(JobAt(a, key), JobAt(u, key)) {
        assert key != record.key ==> JobAt(u, key) == JobAt(r, key);
      }
    }
  }

  lemma GrewFromItself(r: Sample)
    requires WellFormed(r)
    ensures Grew(r, r)
  {
  }

  lemma {:induction false} RunGrows(r: Sample, records: seq<Record>)
    requires WellFormed(r)
    ensures Grew(r, Run(r, records))
    decreases |records|
  {
    if records == [] {
      GrewFromItself(r);
    } else {
      RunGrows(r, records[..|records| - 1]);
      NextGrows(r, Run(r, records[..|records| - 1]), records[|records| - 1]);
    }
  }

  lemma GrewAdvances(a: Sample, b: Sample)
    requires WellFormed(a) && WellFormed(b) && Grew(a, b)
    ensures Advances(a, b)
  {
    forall key | key in b.jobs ensures ValidChange(Change(JobAt(a, key), b.jobs[key])) {
      assert JobGrew(JobAt(a, key), JobAt(b, key));
      ChangeIsValid(JobAt(a, key), b.jobs[key]);
    }
  }

  lemma ChangeIsValid(a: Histogram, b: Histogram)
    requires Cumulative(a) && Cumulative(b) && JobGrew(a, b)
    ensures ValidChange(Change(a, b))
  {
  }

  lemma TimeDoesNotCount(a: Sample, b: Sample, at: int, later: int)
    requires WellFormed(a) && WellFormed(b) && Advances(a, b)
    ensures SampleDelta(a.(sampledAt := at), b.(sampledAt := later)).Some?
  {
    var earlier, after := a.(sampledAt := at), b.(sampledAt := later);
    assert forall key :: JobAt(earlier, key) == JobAt(a, key);
  }

  lemma SnapshotDelta(a: Sample, b: Sample, at: int, later: int, c: Coordinate)
    requires WellFormed(a) && WellFormed(b) && Advances(a, b)
    ensures SampleDelta(a.(sampledAt := at), b.(sampledAt := later)).Some?
    ensures Value(SampleDelta(a.(sampledAt := at), b.(sampledAt := later)).value, c) == Value(b, c) - Value(a, c)
  {
    TimeDoesNotCount(a, b, at, later);
    Redated(a, at, c);
    Redated(b, later, c);
    DeltaIsDifference(a.(sampledAt := at), b.(sampledAt := later), c);
  }

  lemma Redated(s: Sample, at: int, c: Coordinate)
    requires WellFormed(s)
    ensures WellFormed(s.(sampledAt := at)) && Value(s.(sampledAt := at), c) == Value(s, c)
  {
  }

  /** A later snapshot of a registry always gives a valid delta to an earlier one, and its buckets
      count exactly the records in between. */
  lemma LaterSnapshotIsDelta(r: Sample, records: seq<Record>, at: int, later: int, key: Label, i: nat)
    requires WellFormed(r) && i < BUCKETS
    ensures var earlier, after := r.(sampledAt := at), Run(r, records).(sampledAt := later);
            && SampleDelta(earlier, after).Some?
            && Value(SampleDelta(earlier, after).value, BucketOf(key, i)) == Tally(r, records, key, i) as real
  {
    RunGrows(r, records);
    GrewAdvances(r, Run(r, records));
    SnapshotDelta(r, Run(r, records), at, later, BucketOf(key, i));
    BucketsTally(r, records, key, i);
  }

  // ---- The registry object ----

  class Registry {
    var jobs: map<Label, Histogram>
    var render: seq<real>

    ghost function Snapshot(): Sample
      reads this
    {
      Sample(0, jobs, render)
    }

    /** Every addition is checked before the family is stored. */
    method RecordJob(key: Label, milliseconds: real) returns (result: Result<(), Failure>)
      requires WellFormed(Snapshot())
      modifies this`jobs
      ensures Snapshot() == Next(old(Snapshot()), Job(key, milliseconds))
      ensures result.Ok? <==> Recorded(old(Snapshot()), Job(key, milliseconds)).Ok?
    {
      if key.queue >= QUEUES || key.outcome >= OUTCOMES || milliseconds < 0.0 || milliseconds > MAX_DURATION_MS {
        return Err(InvalidMetric);
      }
      var prior := if key in jobs then jobs[key] else ZERO_JOB;
      assert prior == JobAt(Snapshot(), key);
      var count, sum := prior.count + 1.0, prior.sum + milliseconds / 1000.0;
      if count > MAX_SAFE as real || sum > MAX_SAFE as real {
        return Err(Limit);
      }
      var buckets := Bump(prior, milliseconds);
      if buckets.None? {
        return Err(Limit);
      }
      jobs := jobs[key := Histogram(count, sum, buckets.value)];
      return Ok(());
    }

    static method Bump(prior: Histogram, milliseconds: real) returns (buckets: Option<seq<real>>)
      requires |prior.buckets| == BUCKETS
      ensures var next := Incremented(prior, milliseconds).buckets;
              buckets == if forall i :: 0 <= i < BUCKETS ==> next[i] <= MAX_SAFE as real then Some(next) else None
    {
      ghost var next := Incremented(prior, milliseconds).buckets;
      var bumped: seq<real> := [];
      var i := 0;
      while i < BUCKETS
        invariant 0 <= i <= BUCKETS && |bumped| == i
        invariant forall j :: 0 <= j < i ==> bumped[j] == next[j] <= MAX_SAFE as real
      {
        var value := if InBucket(i, milliseconds) then prior.buckets[i] + 1.0 else prior.buckets[i];
        assert value == next[i];
        if value > MAX_SAFE as real {
          return None;
        }
        bumped := bumped + [value];
        i := i + 1;
      }
      assert bumped == next;
      return Some(bumped);
    }
  }
}
