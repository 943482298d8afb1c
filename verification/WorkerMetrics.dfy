/**
 Metrics that worker processes publish as cumulative samples, and the accumulator that adds up what
 happened between them (backend/src/observability/worker-metrics.ts). Numbers are exact reals, as
 JavaScript's counters are below 2^53; rounding of fractional sums is not modelled.
 */
module WorkerMetrics {
  import opened Base

  const MAX_SAFE := 9_007_199_254_740_991
  const WORKERS := 16
  const TTL_MS := 8000
  const QUEUES := 6
  const OUTCOMES := 5
  const RENDERS := 5
  // Twelve finite bounds and +Inf.
  const BUCKETS := 13

  datatype Label = Label(queue: nat, outcome: nat)

  datatype Histogram = Histogram(count: real, sum: real, buckets: seq<real>)

  /** Cumulative job histograms and render counters of one process at one time. */
  datatype Sample = Sample(sampledAt: int, jobs: map<Label, Histogram>, render: seq<real>)

  datatype Row = Row(key: Label, histogram: Histogram)

  /** A sample as it arrives: rows that may repeat a label or break a rule. */
  datatype Raw = Raw(sampledAt: int, jobs: seq<Row>, render: seq<real>)

  datatype Reading = Reading(owner: string, sample: Raw)

  datatype Error = InvalidReading | WorkerLimit | MetricLimit

  // ---- parseWorkerMetricSample ----

  predicate NonNegative(x: real) {
    0.0 <= x <= MAX_SAFE as real
  }

  predicate Count(x: real) {
    NonNegative(x) && x.Floor as real == x
  }

  predicate CountedTime(t: int) {
    0 <= t <= MAX_SAFE
  }

  predicate Fresh(sampledAt: int, now: int) {
    CountedTime(now) && CountedTime(sampledAt) && sampledAt <= now + 2000 && now - sampledAt < TTL_MS
  }

  /** Buckets count everything up to their bound, so they never fall and the last holds everything. */
  predicate Cumulative(h: Histogram) {
    && |h.buckets| == BUCKETS
    && (forall i :: 0 <= i < BUCKETS ==> h.buckets[i] >= 0.0)
    && (forall i, j :: 0 <= i < j < BUCKETS ==> h.buckets[i] <= h.buckets[j])
    && h.buckets[BUCKETS - 1] == h.count
  }

  predicate ValidRow(row: Row) {
    && row.key.queue < QUEUES && row.key.outcome < OUTCOMES
    && Count(row.histogram.count) && NonNegative(row.histogram.sum)
    && Cumulative(row.histogram) && forall i :: 0 <= i < BUCKETS ==> Count(row.histogram.buckets[i])
  }

  predicate DistinctLabels(rows: seq<Row>) {
    forall i, j :: 0 <= i < j < |rows| ==> rows[i].key != rows[j].key
  }

  function JobsOf(rows: seq<Row>): (jobs: map<Label, Histogram>)
    ensures forall key :: key in jobs <==> exists i :: 0 <= i < |rows| && rows[i].key == key
    ensures forall key :: key in jobs ==> exists i :: 0 <= i < |rows| && rows[i] == Row(key, jobs[key])
  {
    if rows == [] then map[]
    else
      var last := rows[|rows| - 1];
      JobsOf(rows[..|rows| - 1])[last.key := last.histogram]
  }

  predicate ValidRaw(raw: Raw, now: int) {
    && Fresh(raw.sampledAt, now)
    && |raw.jobs| <= QUEUES * OUTCOMES && |raw.render| == RENDERS
    && (forall i :: 0 <= i < RENDERS ==> Count(raw.render[i]))
    && (forall i :: 0 <= i < |raw.jobs| ==> ValidRow(raw.jobs[i])) && DistinctLabels(raw.jobs)
  }

  function Parse(raw: Raw, now: int): (sample: Option<Sample>)
    ensures sample.Some? ==> WellFormed(sample.value)
  {
    if ValidRaw(raw, now) then Some(Sample(raw.sampledAt, JobsOf(raw.jobs), raw.render)) else None
  }

  /** What every sample in the accumulator satisfies. */
  predicate Sound(h: Histogram) {
    Cumulative(h) && h.sum >= 0.0
  }

  predicate WellFormed(s: Sample) {
    && |s.render| == RENDERS && (forall i :: 0 <= i < RENDERS ==> s.render[i] >= 0.0)
    && forall key :: key in s.jobs ==> Sound(s.jobs[key])
  }

  // ---- Reading a sample coordinate by coordinate ----

  datatype Coordinate = RenderOf(i: nat) | CountOf(key: Label) | SumOf(key: Label) | BucketOf(key: Label, i: nat)

  function ZeroBuckets(): (zeros: seq<real>)
    ensures |zeros| == BUCKETS && forall i :: 0 <= i < BUCKETS ==> zeros[i] == 0.0
  {
    seq(BUCKETS, i => 0.0)
  }

  const ZERO_JOB := Histogram(0.0, 0.0, ZeroBuckets())

  /** A job that was never recorded counts nothing. */
  function JobAt(s: Sample, key: Label): Histogram {
    if key in s.jobs then s.jobs[key] else ZERO_JOB
  }

  function At(values: seq<real>, i: nat): real {
    if i < |values| then values[i] else 0.0
  }

  function Value(s: Sample, c: Coordinate): real {
    match c
    case RenderOf(i) => At(s.render, i)
    case CountOf(key) => JobAt(s, key).count
    case SumOf(key) => JobAt(s, key).sum
    case BucketOf(key, i) => At(JobAt(s, key).buckets, i)
  }

  // ---- sampleDelta ----

  function Minus(a: seq<real>, b: seq<real>): (r: seq<real>)
    requires |a| == |b|
    ensures |r| == |a| && forall i :: 0 <= i < |a| ==> r[i] == a[i] - b[i]
  {
    seq(|a|, i requires 0 <= i < |a| => a[i] - b[i])
  }

  function Change(prior: Histogram, next: Histogram): Histogram
    requires |prior.buckets| == |next.buckets|
  {
    Histogram(next.count - prior.count, next.sum - prior.sum, Minus(next.buckets, prior.buckets))
  }

  predicate ValidChange(change: Histogram) {
    && change.count >= 0.0 && change.sum >= 0.0 && (change.count == 0.0 ==> change.sum == 0.0)
    && Cumulative(change)
  }

  predicate RenderAdvances(previous: seq<real>, next: seq<real>)
    requires |previous| == |next|
  {
    forall i :: 0 <= i < |next| ==> next[i] >= previous[i]
  }

  /** What each job of the later sample gained; a job seen for the first time gained all it has. */
  function Changes(previous: Sample, next: Sample): map<Label, Histogram>
    requires WellFormed(previous) && WellFormed(next)
  {
    map key | key in next.jobs :: Change(JobAt(previous, key), next.jobs[key])
  }

  predicate AllValid(changes: map<Label, Histogram>) {
    forall key :: key in changes ==> ValidChange(changes[key])
  }

  predicate Advances(previous: Sample, next: Sample)
    requires WellFormed(previous) && WellFormed(next)
  {
    && RenderAdvances(previous.render, next.render)
    && previous.jobs.Keys <= next.jobs.Keys
    && AllValid(Changes(previous, next))
  }

  /** No delta when any cumulative family moves backwards or changes what it counted before. */
  function SampleDelta(previous: Sample, next: Sample): (delta: Option<Sample>)
    requires WellFormed(previous) && WellFormed(next)
    ensures delta.Some? ==> WellFormed(delta.value)
  {
    if !Advances(previous, next) then None
    else Some(Sample(next.sampledAt, Changes(previous, next), Minus(next.render, previous.render)))
  }

  lemma DeltaIsDifference(previous: Sample, next: Sample, c: Coordinate)
    requires WellFormed(previous) && WellFormed(next) && SampleDelta(previous, next).Some?
    ensures var delta := SampleDelta(previous, next).value;
            Value(delta, c) == Value(next, c) - Value(previous, c) >= 0.0
  {
    var delta := SampleDelta(previous, next).value;
    if !c.RenderOf? && c.key !in next.jobs {
      assert c.key !in previous.jobs;
    }
  }

  // ---- Adding ----

  function Plus(a: seq<real>, b: seq<real>): (r: seq<real>)
    requires |a| == |b|
    ensures |r| == |a| && forall i :: 0 <= i < |a| ==> r[i] == a[i] + b[i]
  {
    seq(|a|, i requires 0 <= i < |a| => a[i] + b[i])
  }

  function AddJob(a: Histogram, b: Histogram): (h: Histogram)
    requires |a.buckets| == |b.buckets|
    ensures Sound(a) && Sound(b) ==> Sound(h)
  {
    Histogram(a.count + b.count, a.sum + b.sum, Plus(a.buckets, b.buckets))
  }

  predicate JobFits(h: Histogram) {
    NonNegative(h.count) && NonNegative(h.sum) && forall i :: 0 <= i < |h.buckets| ==> NonNegative(h.buckets[i])
  }

  /** Every label of the sample gets a row, at zero, so that it is exported from the start. */
  function Widen(total: Sample, sample: Sample): (wide: Sample)
    ensures WellFormed(total) ==> WellFormed(wide)
  {
    Sample(total.sampledAt, map key | key in total.jobs.Keys + sample.jobs.Keys :: JobAt(total, key), total.render)
  }

  function Added(total: Sample, delta: Sample): (sum: Sample)
    requires WellFormed(total) && WellFormed(delta)
    ensures WellFormed(sum)
  {
    Sample(total.sampledAt,
           map key | key in total.jobs.Keys + delta.jobs.Keys ::
             if key in delta.jobs then AddJob(JobAt(total, key), delta.jobs[key]) else total.jobs[key],
           Plus(total.render, delta.render))
  }

  /** Only what was added to is checked. */
  predicate Fits(sum: Sample, delta: Sample)
    requires delta.jobs.Keys <= sum.jobs.Keys
  {
    && (forall i :: 0 <= i < |sum.render| ==> NonNegative(sum.render[i]))
    && forall key :: key in delta.jobs ==> JobFits(sum.jobs[key])
  }

  function Add(total: Sample, delta: Sample): (r: Result<Sample, Error>)
    requires WellFormed(total) && WellFormed(delta)
    ensures r.Ok? ==> WellFormed(r.value)
  {
    var sum := Added(total, delta);
    if Fits(sum, delta) then Ok(sum) else Err(MetricLimit)
  }

  lemma AddedValue(total: Sample, delta: Sample, c: Coordinate)
    requires WellFormed(total) && WellFormed(delta)
    ensures Value(Added(total, delta), c) == Value(total, c) + Value(delta, c)
  {
  }

  lemma WidenValue(total: Sample, sample: Sample, c: Coordinate)
    requires WellFormed(total)
    ensures Value(Widen(total, sample), c) == Value(total, c)
  {
  }

  // ---- The accumulator ----

  /** The last accepted sample of every owner in sight, and everything counted so far. */
  datatype State = State(baselines: map<string, Sample>, total: Sample)

  const EMPTY_SAMPLE := Sample(0, map[], [0.0, 0.0, 0.0, 0.0, 0.0])
  const START := State(map[], EMPTY_SAMPLE)

  predicate OwnerChar(c: char) {
    'a' <= c <= 'z' || 'A' <= c <= 'Z' || '0' <= c <= '9' || c == '-'
  }

  predicate ValidOwner(owner: string) {
    1 <= |owner| <= 100 && forall i :: 0 <= i < |owner| ==> OwnerChar(owner[i])
  }

  predicate ValidReadings(readings: seq<Reading>, now: int) {
    && (forall i :: 0 <= i < |readings| ==> ValidOwner(readings[i].owner) && ValidRaw(readings[i].sample, now))
    && forall i, j :: 0 <= i < j < |readings| ==> readings[i].owner != readings[j].owner
  }

  function Previous(baselines: map<string, Sample>, owner: string): Option<Sample> {
    if owner in baselines then Some(baselines[owner]) else None
  }

  predicate GoodPrevious(previous: Option<Sample>) {
    previous.Some? ==> WellFormed(previous.value)
  }

  /** The sample moves its owner's baseline: it is the first, or later and not regressing. */
  predicate Accepted(previous: Option<Sample>, sample: Sample)
    requires GoodPrevious(previous) && WellFormed(sample)
  {
    previous.None? || (sample.sampledAt > previous.value.sampledAt && Advances(previous.value, sample))
  }

  function NewBaseline(previous: Option<Sample>, sample: Sample): Sample
    requires GoodPrevious(previous) && WellFormed(sample)
  {
    if Accepted(previous, sample) then sample else previous.value
  }

  function Increase(previous: Option<Sample>, sample: Sample): (delta: Sample)
    requires GoodPrevious(previous) && WellFormed(sample) && Accepted(previous, sample)
    ensures WellFormed(delta)
  {
    if previous.None? then EMPTY_SAMPLE else SampleDelta(previous.value, sample).value
  }

  /** What one owner's sample does to the total. */
  function AddTo(total: Sample, previous: Option<Sample>, sample: Sample): (sum: Result<Sample, Error>)
    requires WellFormed(total) && GoodPrevious(previous) && WellFormed(sample)
    ensures sum.Ok? ==> WellFormed(sum.value)
  {
    if Accepted(previous, sample) then Add(Widen(total, sample), Increase(previous, sample)) else Ok(total)
  }

  predicate WellFormedState(s: State) {
    WellFormed(s.total) && forall owner :: owner in s.baselines ==> WellFormed(s.baselines[owner])
  }

  /** The parsed readings, in order: what the source collects before it changes anything. */
  datatype Entry = Entry(owner: string, sample: Sample)

  predicate GoodEntries(entries: seq<Entry>) {
    && (forall i :: 0 <= i < |entries| ==> WellFormed(entries[i].sample))
    && forall i, j :: 0 <= i < j < |entries| ==> entries[i].owner != entries[j].owner
  }

  function EntryOf(reading: Reading, now: int): (entry: Entry)
    requires ValidRaw(reading.sample, now)
    ensures WellFormed(entry.sample) && entry.owner == reading.owner
  {
    Entry(reading.owner, Parse(reading.sample, now).value)
  }

  function Incoming(readings: seq<Reading>, now: int): (entries: seq<Entry>)
    requires ValidReadings(readings, now)
    ensures |entries| == |readings| && GoodEntries(entries)
  {
    seq(|readings|, i requires 0 <= i < |readings| => EntryOf(readings[i], now))
  }

  /** The owners read so far, each with its new baseline. */
  function Baselines(s: State, entries: seq<Entry>): (baselines: map<string, Sample>)
    requires WellFormedState(s) && GoodEntries(entries)
    ensures forall owner :: owner in baselines ==> WellFormed(baselines[owner])
  {
    if entries == [] then map[]
    else
      var front, last := entries[..|entries| - 1], entries[|entries| - 1];
      Baselines(s, front)[last.owner := NewBaseline(Previous(s.baselines, last.owner), last.sample)]
  }

  function Total(s: State, entries: seq<Entry>): (total: Result<Sample, Error>)
    requires WellFormedState(s) && GoodEntries(entries)
    ensures total.Ok? ==> WellFormed(total.value)
  {
    if entries == [] then Ok(s.total)
    else
      var front, last := entries[..|entries| - 1], entries[|entries| - 1];
      match Total(s, front)
      case Err(e) => Err(e)
      case Ok(total) => AddTo(total, Previous(s.baselines, last.owner), last.sample)
  }

  /** A first baseline only starts the window: what came before it is not counted. */
  function Moved(previous: Option<Sample>, baseline: Sample, c: Coordinate): real {
    if previous.None? then 0.0 else Value(baseline, c) - Value(previous.value, c)
  }

  lemma IncreaseValue(previous: Option<Sample>, sample: Sample, c: Coordinate)
    requires GoodPrevious(previous) && WellFormed(sample) && Accepted(previous, sample)
    ensures Value(Increase(previous, sample), c) == Moved(previous, NewBaseline(previous, sample), c) >= 0.0
  {
    if previous.Some? {
      DeltaIsDifference(previous.value, sample, c);
    }
  }

  /** The total grows by exactly what the baseline moved. */
  lemma AddToValue(total: Sample, previous: Option<Sample>, sample: Sample, c: Coordinate)
    requires WellFormed(total) && GoodPrevious(previous) && WellFormed(sample)
    requires AddTo(total, previous, sample).Ok?
    ensures Value(AddTo(total, previous, sample).value, c)
            == Value(total, c) + Moved(previous, NewBaseline(previous, sample), c) >= Value(total, c)
  {
    if Accepted(previous, sample) {
      WidenValue(total, sample, c);
      IncreaseValue(previous, sample, c);
      AddedValue(Widen(total, sample), Increase(previous, sample), c);
    }
  }

  lemma {:induction false} BaselineOwners(s: State, entries: seq<Entry>, owner: string)
    requires WellFormedState(s) && GoodEntries(entries)
    ensures owner in Baselines(s, entries) <==> exists i :: 0 <= i < |entries| && entries[i].owner == owner
    decreases |entries|
  {
    if entries != [] {
      var front := entries[..|entries| - 1];
      BaselineOwners(s, front, owner);
      assert owner in Baselines(s, entries) <==> owner in Baselines(s, front) || owner == entries[|front|].owner;
      assert forall i :: 0 <= i < |front| ==> front[i] == entries[i];
    }
  }

  /** observe: no readings means the channel was unreachable. An owner that is not in them departed. */
  function Observe(s: State, readings: Option<seq<Reading>>, now: int): Result<State, Error>
    requires WellFormedState(s)
  {
    if readings.None? then Ok(s)
    else if !CountedTime(now) then Err(InvalidReading)
    else if |readings.value| > WORKERS then Err(WorkerLimit)
    else if !ValidReadings(readings.value, now) then Err(InvalidReading)
    else
      ObserveEntries(s, Incoming(readings.value, now), now)
  }

  function ObserveEntries(s: State, entries: seq<Entry>, now: int): Result<State, Error>
    requires WellFormedState(s) && GoodEntries(entries)
  {
    match Total(s, entries)
    case Err(e) => Err(e)
    case Ok(total) => Ok(State(Baselines(s, entries), total.(sampledAt := now)))
  }
}
