/**
 What the accumulated total means after any stream of observations: the sum, over every uninterrupted
 presence of an owner, of its last accepted sample minus its first.
 */
module WorkerMetricsRuns {
  import opened Base
  import opened WorkerMetrics

  datatype Observation = Observation(readings: Option<seq<Reading>>, now: int)

  function After(s: State, o: Observation): State
    requires WellFormedState(s)
  {
    var r := Observe(s, o.readings, o.now);
    if r.Ok? then r.value else s
  }

  function Run(observations: seq<Observation>): (s: State)
    ensures WellFormedState(s)
  {
    if observations == [] then START else After(Run(observations[..|observations| - 1]), observations[|observations| - 1])
  }

  // ---- The ledger of presences ----

  datatype Presence = Presence(owner: string, first: Sample, last: Sample)

  /** Every presence so far, and where the current one of each owner in sight is. */
  datatype Ledger = Ledger(rows: seq<Presence>, current: map<string, nat>)

  function Counted(p: Presence, c: Coordinate): real {
    Value(p.last, c) - Value(p.first, c)
  }

  function Sum(rows: seq<Presence>, c: Coordinate): real {
    if rows == [] then 0.0 else Sum(rows[..|rows| - 1], c) + Counted(rows[|rows| - 1], c)
  }

  ghost predicate Linked(baselines: map<string, Sample>, ledger: Ledger) {
    && ledger.current.Keys == baselines.Keys
    && forall owner :: owner in baselines ==>
         && ledger.current[owner] < |ledger.rows|
         && ledger.rows[ledger.current[owner]].owner == owner
         && ledger.rows[ledger.current[owner]].last == baselines[owner]
  }

  function Place(ledger: Ledger, owner: string): Option<nat> {
    if owner in ledger.current then Some(ledger.current[owner]) else None
  }

  function TrackOne(rows: seq<Presence>, at: Option<nat>, owner: string, sample: Sample, baseline: Sample): seq<Presence>
    requires at.Some? ==> at.value < |rows|
  {
    if at.Some? then rows[at.value := rows[at.value].(last := baseline)] else rows + [Presence(owner, sample, sample)]
  }

  function TrackNext(before: Ledger, at: Option<nat>, owner: string, sample: Sample, baseline: Sample): Ledger
    requires at.Some? ==> at.value < |before.rows|
  {
    Ledger(TrackOne(before.rows, at, owner, sample, baseline),
           before.current[owner := if at.Some? then at.value else |before.rows|])
  }

  /** A prefix of an observation's readings: known owners go on, new ones start a presence. */
  ghost function Track(s: State, ledger: Ledger, entries: seq<Entry>): (next: Ledger)
    requires WellFormedState(s) && Linked(s.baselines, ledger) && GoodEntries(entries)
    ensures |next.rows| >= |ledger.rows|
  {
    if entries == [] then Ledger(ledger.rows, map[])
    else
      var front, last := entries[..|entries| - 1], entries[|entries| - 1];
      TrackNext(Track(s, ledger, front), Place(ledger, last.owner), last.owner,
                last.sample, NewBaseline(Previous(s.baselines, last.owner), last.sample))
  }

  lemma {:induction false} SumUpdate(rows: seq<Presence>, i: nat, p: Presence, c: Coordinate)
    requires i < |rows|
    ensures Sum(rows[i := p], c) == Sum(rows, c) - Counted(rows[i], c) + Counted(p, c)
    decreases |rows|
  {
    var front := rows[..|rows| - 1];
    if i == |rows| - 1 {
      assert rows[i := p][..|rows| - 1] == front;
    } else {
      assert rows[i := p][..|rows| - 1] == front[i := p];
      SumUpdate(front, i, p, c);
    }
  }

  lemma SumOne(rows: seq<Presence>, at: Option<nat>, owner: string, sample: Sample, previous: Option<Sample>, baseline: Sample, c: Coordinate)
    requires at.Some? ==> at.value < |rows| && previous == Some(rows[at.value].last)
    requires at.None? ==> previous.None?
    ensures Sum(TrackOne(rows, at, owner, sample, baseline), c) == Sum(rows, c) + Moved(previous, baseline, c)
  {
    if at.Some? {
      SumUpdate(rows, at.value, rows[at.value].(last := baseline), c);
    } else {
      assert (rows + [Presence(owner, sample, sample)])[..|rows|] == rows;
    }
  }

  /** The ledger follows the baselines; presences of owners not read yet are untouched. */
  ghost predicate Follows(ledger: Ledger, baselines: map<string, Sample>, next: Ledger) {
    && Linked(baselines, next) && |next.rows| >= |ledger.rows|
    && forall k :: 0 <= k < |ledger.rows| ==>
         && next.rows[k].owner == ledger.rows[k].owner
         && (ledger.rows[k].owner !in next.current ==> next.rows[k] == ledger.rows[k])
  }

  lemma FollowStep(known: map<string, Sample>, ledger: Ledger, baselines: map<string, Sample>, before: Ledger,
                   owner: string, sample: Sample, baseline: Sample)
    requires Linked(known, ledger) && Follows(ledger, baselines, before) && owner !in baselines
    requires owner !in known ==> baseline == sample
    ensures Follows(ledger, baselines[owner := baseline], TrackNext(before, Place(ledger, owner), owner, sample, baseline))
  {
    if owner in known {
      FollowKnown(known, ledger, baselines, before, owner, sample, baseline);
    } else {
      FollowNew(known, ledger, baselines, before, owner, sample);
    }
  }

  lemma FollowKnown(known: map<string, Sample>, ledger: Ledger, baselines: map<string, Sample>, before: Ledger,
                    owner: string, sample: Sample, baseline: Sample)
    requires Linked(known, ledger) && Follows(ledger, baselines, before) && owner !in baselines && owner in known
    ensures Follows(ledger, baselines[owner := baseline], TrackNext(before, Some(ledger.current[owner]), owner, sample, baseline))
  {
    var at := ledger.current[owner];
    assert before.rows[at].owner == owner;
  }

  lemma FollowNew(known: map<string, Sample>, ledger: Ledger, baselines: map<string, Sample>, before: Ledger,
                  owner: string, sample: Sample)
    requires Linked(known, ledger) && Follows(ledger, baselines, before) && owner !in baselines && owner !in known
    ensures Follows(ledger, baselines[owner := sample], TrackNext(before, None, owner, sample, sample))
  {
  }

  lemma FrontValid(entries: seq<Entry>)
    requires entries != [] && GoodEntries(entries)
    ensures GoodEntries(entries[..|entries| - 1])
    ensures forall i :: 0 <= i < |entries| - 1 ==> entries[i].owner != entries[|entries| - 1].owner
  {
  }

  lemma {:induction false} TrackFollows(s: State, ledger: Ledger, entries: seq<Entry>)
    requires WellFormedState(s) && Linked(s.baselines, ledger) && GoodEntries(entries)
    ensures Follows(ledger, Baselines(s, entries), Track(s, ledger, entries))
    decreases |entries|
  {
    if entries != [] {
      var front, last := entries[..|entries| - 1], entries[|entries| - 1];
      FrontValid(entries);
      TrackFollows(s, ledger, front);
      BaselineOwners(s, front, last.owner);
      var previous, sample := Previous(s.baselines, last.owner), last.sample;
      FollowStep(s.baselines, ledger, Baselines(s, front), Track(s, ledger, front),
                 last.owner, sample, NewBaseline(previous, sample));
    }
  }

  lemma CountStep(total: Sample, rows: seq<Presence>, at: Option<nat>, owner: string, previous: Option<Sample>, sample: Sample, c: Coordinate)
    requires WellFormed(total) && GoodPrevious(previous) && WellFormed(sample) && AddTo(total, previous, sample).Ok?
    requires at.Some? ==> at.value < |rows| && previous == Some(rows[at.value].last)
    requires at.None? ==> previous.None?
    ensures Sum(TrackOne(rows, at, owner, sample, NewBaseline(previous, sample)), c) - Sum(rows, c)
            == Value(AddTo(total, previous, sample).value, c) - Value(total, c) >= 0.0
  {
    AddToValue(total, previous, sample, c);
    SumOne(rows, at, owner, sample, previous, NewBaseline(previous, sample), c);
  }

  /** An owner not read yet is still where the ledger had it, with its known baseline. */
  lemma StillThere(known: map<string, Sample>, ledger: Ledger, baselines: map<string, Sample>, before: Ledger, owner: string)
    requires Linked(known, ledger) && Follows(ledger, baselines, before) && owner !in baselines
    ensures var at := Place(ledger, owner);
            && (at.Some? ==> at.value < |before.rows| && Previous(known, owner) == Some(before.rows[at.value].last))
            && (at.None? ==> Previous(known, owner).None?)
  {
  }

  lemma TrackCountsStep(s: State, ledger: Ledger, entries: seq<Entry>, c: Coordinate)
    requires WellFormedState(s) && Linked(s.baselines, ledger) && GoodEntries(entries)
    requires entries != [] && GoodEntries(entries[..|entries| - 1]) && Total(s, entries).Ok?
    ensures var front := entries[..|entries| - 1];
            Total(s, front).Ok? && Sum(Track(s, ledger, entries).rows, c) - Sum(Track(s, ledger, front).rows, c)
            == Value(Total(s, entries).value, c) - Value(Total(s, front).value, c) >= 0.0
  {
    var front, last := entries[..|entries| - 1], entries[|entries| - 1];
    FrontValid(entries);
    TrackFollows(s, ledger, front);
    BaselineOwners(s, front, last.owner);
    StillThere(s.baselines, ledger, Baselines(s, front), Track(s, ledger, front), last.owner);
    CountStep(Total(s, front).value, Track(s, ledger, front).rows, Place(ledger, last.owner), last.owner,
              Previous(s.baselines, last.owner), last.sample, c);
  }

  lemma {:induction false} TrackCounts(s: State, ledger: Ledger, entries: seq<Entry>, c: Coordinate)
    requires WellFormedState(s) && Linked(s.baselines, ledger) && GoodEntries(entries) && Total(s, entries).Ok?
    ensures Sum(Track(s, ledger, entries).rows, c) - Sum(ledger.rows, c)
            == Value(Total(s, entries).value, c) - Value(s.total, c) >= 0.0
    decreases |entries|
  {
    if entries != [] {
      var front := entries[..|entries| - 1];
      FrontValid(entries);
      TrackCountsStep(s, ledger, entries, c);
      TrackCounts(s, ledger, front, c);
    }
  }

  /** An unreachable channel or a refused observation leaves the ledger alone. */
  ghost function NextLedger(s: State, ledger: Ledger, o: Observation): Ledger
    requires WellFormedState(s) && Linked(s.baselines, ledger)
  {
    if o.readings.Some? && Observe(s, o.readings, o.now).Ok? then Track(s, ledger, Incoming(o.readings.value, o.now)) else ledger
  }

  lemma NextLinks(s: State, ledger: Ledger, o: Observation)
    requires WellFormedState(s) && Linked(s.baselines, ledger)
    ensures Linked(After(s, o).baselines, NextLedger(s, ledger, o))
  {
    if o.readings.Some? && Observe(s, o.readings, o.now).Ok? {
      TrackFollows(s, ledger, Incoming(o.readings.value, o.now));
    }
  }

  ghost function Presences(observations: seq<Observation>): (ledger: Ledger)
    ensures Linked(Run(observations).baselines, ledger)
  {
    if observations == [] then Ledger([], map[])
    else
      var front, last := observations[..|observations| - 1], observations[|observations| - 1];
      NextLinks(Run(front), Presences(front), last);
      NextLedger(Run(front), Presences(front), last)
  }

  lemma SampledAtDoesNotCount(s: Sample, at: int, c: Coordinate)
    ensures Value(s.(sampledAt := at), c) == Value(s, c)
  {
  }

  lemma ObserveCounts(s: State, ledger: Ledger, o: Observation, c: Coordinate)
    requires WellFormedState(s) && Linked(s.baselines, ledger)
    ensures Sum(NextLedger(s, ledger, o).rows, c) - Sum(ledger.rows, c) == Value(After(s, o).total, c) - Value(s.total, c) >= 0.0
  {
    if o.readings.Some? && Observe(s, o.readings, o.now).Ok? {
      TrackCounts(s, ledger, Incoming(o.readings.value, o.now), c);
      SampledAtDoesNotCount(Total(s, Incoming(o.readings.value, o.now)).value, o.now, c);
    }
  }

  /** Stale, reordered or regressing samples, departures and returns: every coordinate of the total is
      what the presences counted between their first and last accepted sample. */
  lemma {:induction false} Conservation(observations: seq<Observation>, c: Coordinate)
    ensures Value(Run(observations).total, c) == Sum(Presences(observations).rows, c)
    decreases |observations|
  {
    if observations != [] {
      var front, last := observations[..|observations| - 1], observations[|observations| - 1];
      Conservation(front, c);
      ObserveCounts(Run(front), Presences(front), last, c);
    }
  }

  lemma {:induction false} NeverDecreases(observations: seq<Observation>, earlier: nat, c: Coordinate)
    requires earlier <= |observations|
    ensures Value(Run(observations[..earlier]).total, c) <= Value(Run(observations).total, c)
    decreases |observations|
  {
    if earlier == |observations| {
      assert observations[..earlier] == observations;
    } else {
      var front, last := observations[..|observations| - 1], observations[|observations| - 1];
      NeverDecreases(front, earlier, c);
      assert front[..earlier] == observations[..earlier];
      ObserveCounts(Run(front), Presences(front), last, c);
    }
  }

  lemma InsertSize<K, V>(m: map<K, V>, key: K, value: V)
    ensures |m[key := value]| <= |m| + 1
  {
    assert m[key := value].Keys == m.Keys + {key};
  }

  lemma {:induction false} BaselineSize(s: State, entries: seq<Entry>)
    requires WellFormedState(s) && GoodEntries(entries)
    ensures |Baselines(s, entries)| <= |entries|
    decreases |entries|
  {
    if entries != [] {
      var front, last := entries[..|entries| - 1], entries[|entries| - 1];
      FrontValid(entries);
      BaselineSize(s, front);
      InsertSize(Baselines(s, front), last.owner, Baselines(s, entries)[last.owner]);
    }
  }

  /** The exported total is always a cumulative histogram per job, and at most 16 owners are kept. */
  lemma {:induction false} AlwaysExportable(observations: seq<Observation>, key: Label)
    ensures var s := Run(observations);
            && |s.baselines| <= WORKERS
            && (key in s.total.jobs ==> Cumulative(s.total.jobs[key]) && s.total.jobs[key].sum >= 0.0)
    decreases |observations|
  {
    if observations != [] {
      var front, last := observations[..|observations| - 1], observations[|observations| - 1];
      AlwaysExportable(front, key);
      if last.readings.Some? && Observe(Run(front), last.readings, last.now).Ok? {
        BaselineSize(Run(front), Incoming(last.readings.value, last.now));
      }
    }
  }
}
