# Verified model of the Inker back end

A Dafny model of the protocols and algorithms in this repository whose correctness is not visible in any
one function: the transactional outbox, the streaming HTTP response parser, the playback machine and its
durable driver, workday arithmetic, remote publication sync, worker metrics, interaction commands, bounded
JSON copying, the display gateway and the isolated executor. Check it with `dafny verify dfyconfig.toml`.

## How it is built

Each component has up to three layers.

* A specification: datatypes for the rows or fields and one pure function per atomic step, with the
  branches, limits and error cases of the code. Where the code is a fast form (`position`, `countDays`,
  the parser's block copies, the JSON counters) the specification is an independent slow form.
* Laws: lemmas about every run. A run is a sequence of steps with arbitrary arguments (clock readings,
  tokens, interleavings, failures), so a lemma about `Run` is about every reachable state.
* The imperative form: a class whose fields are the tables or counters and whose methods follow the code
  statement by statement, loops included. Each method is proved equal to the specification step, so the
  laws hold of it.

| component | specification | laws | imperative form |
|---|---|---|---|
| Outbox | Outbox, Queues, Fanout | OutboxRuns, OutboxBudgets, FanoutRuns | OutboxStore |
| HTTP parser | ResponseParser | ResponseParserLaws | RemoteResponseParser |
| Playback | Playback, PlaybackDriver | Playback, PlaybackDriver, PlaybackRuns | Playback (methods), PlaybackService |
| Workdays | DaysUntil | DaysUntil | DaysUntil (methods) |
| Worker metrics | WorkerMetrics, MetricsRegistry | WorkerMetricsRuns, MetricsRegistry | MetricsAccumulator, MetricsRegistry |
| Remote sync | RemoteSync | RemoteRuns | RemoteStore |
| Interactions | Interactions | InteractionRuns | InteractionService |
| JSON budgets | Utf8, JsonText | JsonText, JsonBudget | JsonBudget, GuestPrinter |
| Gateway | Gateway | Gateway | DisplayGateway |
| Executor | Executor | Executor | IsolatedExecutor |

Modelling conventions: a SQLite transaction is one atomic step; UUIDs are fresh values; a SHA-256 hash is
the value it identifies (injective); timers and promise continuations are steps that may come at any time;
clock readings are arguments, unordered unless a lemma says otherwise; times are integer milliseconds.

## What differs from a plain reading

Where a property one would expect is false of the code, the exact condition is proved instead.

* `queueForEvent` finds names that every object inherits (`constructor`, `toString` and the like), so it
  agrees with the claim filters exactly on the other names (`Queues.RoutingAgrees`).
* `prepare` with an explicit device list does not ask whether a device is active: every listed device that
  exists gets a row, so "every active listed recipient" holds but is not all (`Fanout.PreparedIsComplete`).
* A chunk that carries bytes beyond the end of a message is refused, the same bytes in a later chunk are
  ignored; cuttings agree exactly when there is no excess (`ResponseParserLaws.AnyCutting`,
  `ExcessInOneChunk`, `ExcessAfterCut`).
* `position` refuses reachable anchors near the last supported instant: exactly on its last day there are
  such anchors (`Playback.PositionsUntilTheLastDay`), and one is refused exactly when its entry outlasts
  supported time (`RefusedAtTheEnd`).
* "At most five hand-outs" and "a dead letter never changes" do not hold of timer events: a worker start
  revives dead timers and an early timer gives its attempt back. They hold for all other types
  (`OutboxRuns.AttemptBudget`, `TerminalForever`); a timer has five per revival (`FivePerArming`).
* One subscription version can have two pending or processing events. Exactly the schedules that run while
  a completed job waits for its acknowledgement cause this (`RemoteRuns.ScheduleDoubles`,
  `OneLiveExactly`), and at most one of the two belongs to an uncompleted job (`OneJobAtWork`).
* With an odd byte budget `cloneIsolatedJson` refuses one family of arrays that would fit
  (`JsonBudget.KeyBoundsAreImplied`).
* The token bucket takes the clock as it is: a backward step earns the same time twice
  (`Gateway.ClockStepDoublesBurst`); the bound for any clock is `Gateway.BudgetHolds`.

## Model

| member | source | states |
|---|---|---|
| `OutboxRuns.RunKeeps` | backend/src/events/outbox.store.ts:26-180 | Over every interleaving of claims, acks, fails, expiries, inserts, deferrals and revivals of timers: attempts are at most 5, pending rows have fewer, a processing row is exactly what its token was issued for, a row was issued once per counted attempt or one handed back, and settled tokens hold nothing. |
| `OutboxRuns.AttemptBudget` | backend/src/events/outbox.store.ts:81-128 | Every event that is not a timer is handed out at most five times in any run, once per counted attempt; a timer once per counted attempt or one that was handed back; a pending event has fewer than five. |
| `OutboxRuns.FivePerArming` | backend/src/timers/timer-worker.service.ts:37-47 | Between its creation or a revival and the next revival a timer is handed out at most five times, not counting the early hand-outs it gave back. |
| `OutboxRuns.DeadStep` | backend/src/timers/timer-scheduling.ts:35-39 | A delivered or dead row changes in one case only: a dead timer is revived at a worker start, pending again with all its attempts. |
| `OutboxRuns.TerminalForever` | backend/src/events/outbox.store.ts:36-180 | A delivered row of any type, and a dead letter of any type but a timer, never changes again. |
| `OutboxRuns.LostForever` | backend/src/events/outbox.store.ts:26-34 | A token that no longer holds its row passes the fence at no later time: neither its acknowledgement nor its failure succeeds, and both leave all rows as they are. |
| `OutboxRuns.NewerClaimFencesOlder` | backend/src/events/outbox.store.ts:110-124 | Once a newer claim took the row, acks and fails of every older token change nothing for ever. |
| `OutboxRuns.SettledOnce` | backend/src/events/outbox.store.ts:135-180 | Each claim token allows at most one successful ack or fail in a run. |
| `OutboxRuns.HolderSettles` | backend/src/events/outbox.store.ts:135-180 | The unexpired holder settles the row: ack delivers it, fail returns it or buries it exactly at the fifth attempt or for an invalid payload. |
| `OutboxRuns.ClaimHandsOut` | backend/src/events/outbox.store.ts:104-128 | A claim hands out the oldest claimable row with one more attempt, settleable exactly until its lease ends; other rows stay or, exhausted, become dead letters. |
| `OutboxBudgets.QueueBudgets` | backend/src/events/outbox.store.ts:43-61 | With claimers whose clocks lag the true one, the unexpired leases of each queue never exceed its global limit in any reachable state. |
| `OutboxBudgets.RemoteBudgets` | backend/src/federation/remote-worker.service.ts:66-73 | The global, per-server and per-subscription limits of remote sync (2, 1, 1) hold together in every run. |
| `OutboxBudgets.RunWithin` | backend/src/events/outbox.store.ts:49-61 | Any limit that every claim respects by counting before it reserves holds at every later true time. |
| `Queues.RetryDelayBounds` | backend/src/jobs/queue-policy.ts:72-92 | Retry delays are at least one and at most 72 seconds, never shrink with the attempt, double up to the fifth, and jitter only adds. |
| `Queues.FiltersPartition` | backend/src/jobs/queue-routing.ts:13-16 | Every event type is claimed by exactly one queue. |
| `Queues.RoutingAgrees` | backend/src/jobs/queue-routing.ts:4-16 | Dispatch routing agrees with the claim filters exactly for event types that are not names inherited from Object.prototype. |
| `OutboxStore.Store.Claim` | backend/src/events/outbox.store.ts:36-62 | Budgets are validated, then counted before anything is written; a claim happens only below every limit and only for rows of every budget group. |
| `OutboxStore.Store.ClaimFrom` | backend/src/events/outbox.store.ts:64-129 | Buries up to a batch of exhausted rows, then leases the oldest claimable one (by time, then id), with one more attempt. |
| `OutboxStore.Store.BuryExhausted` | backend/src/events/outbox.store.ts:81-103 | The loop over exhausted rows turns exactly the queried batch into dead letters. |
| `OutboxStore.Store.FindFirst` | backend/src/events/outbox.store.ts:104-108 | The candidate is first by occurrence, then id, among all claimable rows; none exactly when there is none. |
| `OutboxStore.Store.Acknowledge` | backend/src/events/outbox.store.ts:135-155 | Under the fence the row becomes delivered and its effect completed; otherwise nothing changes. |
| `OutboxStore.Store.Reject` | backend/src/events/outbox.store.ts:157-180 | Under the fence the row is requeued with its delay or buried; a bad random sample throws before any write. |
| `OutboxStore.Store.PrepareBatch` | backend/src/events/outbox.store.ts:197-294 | One transaction commits at most one batch of recipient rows, consumer targets or the preparation mark, and nothing when either fence fails. |
| `OutboxStore.Store.InsertRows` | backend/src/events/outbox.store.ts:230-293 | The batch is the 64 lowest missing listed devices, else up to 64 live consumers without a target, else the mark. |
| `OutboxStore.Store.Prepare` | backend/src/events/outbox.store.ts:194-300 | With fixed devices and consumers the batch loop ends, keeps the snapshot invariant, and reports done for its own effect only when every listed device that exists has its row and nobody else has one. |
| `OutboxStore.Store.TargetsComplete` | backend/src/events/outbox.store.ts:302-317 | True exactly when every target of a consumer whose lease is running is delivered. |
| `Fanout.RegistrationHoldsUp` | backend/src/events/outbox.store.ts:182-192 | A registered consumer holds up exactly the effects it is a target of, until it has delivered or its fifteen seconds are over; nothing else depends on it. |
| `OutboxStore.Store.BeginTarget` | backend/src/events/outbox.store.ts:338-357 | Marks an undelivered target with the current claim, once per claim until another claim begins it. |
| `OutboxStore.Store.FinishTarget` | backend/src/events/outbox.store.ts:359-390 | Only the unexpired claim that began the attempt decides it. |
| `Fanout.PrepareKeepsSnapshot` | backend/src/events/outbox.store.ts:199-293 | A batch transaction keeps: one row per recipient, every row of a recipient of the one event that owns the effect. |
| `Fanout.PreparedIsComplete` | backend/src/events/outbox.store.ts:262-293 | The transaction that marks an effect prepared leaves a row for every listed existing device, none for others, and a target for every live consumer. |
| `Fanout.BatchMakesProgress` | backend/src/events/outbox.store.ts:262-299 | Every unfinished batch leaves strictly fewer rows to insert, and the next batch, by whichever worker, resumes exactly there. |
| `FanoutRuns.RunKeeps` | backend/src/events/outbox.store.ts:194-300 | The snapshot invariant holds over every interleaving of workers, takeovers, consumers and devices. |
| `FanoutRuns.NeverMixed` | backend/src/events/outbox.store.ts:206-229 | In every run no recipient has two rows of one effect, and every row is of a recipient of the event that owns the effect. |
| `FanoutRuns.FrozenForever` | backend/src/events/outbox.store.ts:206-227 | Nothing is added to or removed from a snapshot after preparation. |
| `FanoutRuns.VisibleSnapshot` | backend/src/events/outbox.store.ts:194-300 | However many takeovers it took, the snapshot that becomes visible is complete, contains nothing else and stays so. |
| `FanoutRuns.DecidedByHolder` | backend/src/events/outbox.store.ts:338-390 | Whether a target is delivered is changed only by the claim that began its last attempt, while it holds its event and its lease has not ended. |
| `FanoutRuns.DeliveredForever` | backend/src/events/outbox.store.ts:338-390 | A delivered target whose claim has ended is never attempted or reset again, in any later history. |
| `ResponseParserLaws.SplitIndependence` | backend/src/federation/remote-transport.ts:139-176 | If feeding a neither fails nor completes, feeding b next gives the same state, response or error as feeding both at once. |
| `ResponseParserLaws.AnyCutting` | backend/src/federation/remote-transport.ts:139-176 | Any cutting of a message without excess bytes has the result of the uncut message. |
| `ResponseParserLaws.FailureIsFinal` | backend/src/federation/remote-transport.ts:139-176 | A failing start fails with the same code whatever follows it in the same chunk. |
| `ResponseParserLaws.ExcessInOneChunk` | backend/src/federation/remote-transport.ts:184-188 | Excess bytes in the completing chunk refuse the message. |
| `ResponseParserLaws.ExcessAfterCut` | backend/src/federation/remote-transport.ts:139-188 | The same bytes in a later chunk are ignored: here the cutting does matter. |
| `ResponseParserLaws.ConnectionBounded` | backend/src/federation/remote-transport.ts:139-188 | For any chunks: total at most maxBytes, total plus remaining at most maxBytes, control bytes within 8192 and 64, and complete fires at most once. |
| `ResponseParserLaws.RunConcat` | backend/src/federation/remote-transport.ts:139-176 | Processing a concatenation byte by byte is processing its parts one after the other. |
| `ResponseParserLaws.ChunkedRoundTrip` | backend/src/federation/remote-transport.ts:142-171 | Every chunked encoding of a body (section 7.1 of RFC 9112, no extensions or trailers) decodes to exactly that body if it fits the limit and is refused as too large otherwise. |
| `ResponseParserLaws.LengthRoundTrip` | backend/src/federation/remote-transport.ts:102-137 | A body of the announced length is delivered as it is, including bodies that must be empty. |
| `ResponseParserLaws.CloseRoundTrip` | backend/src/federation/remote-transport.ts:162-182 | A close-delimited body is delivered at the end of the connection exactly when it fits the limit. |
| `ResponseParserLaws.ChunkedInPieces` | backend/src/federation/remote-transport.ts:139-176 | In however many pieces a chunked message arrives, exactly its body is delivered, or it is refused as too large exactly when it is. |
| `ResponseParserLaws.LengthInPieces` | backend/src/federation/remote-transport.ts:102-176 | The same for a body of announced length. |
| `ResponseParserLaws.CloseInPieces` | backend/src/federation/remote-transport.ts:139-182 | The same for a body that ends with the connection. |
| `ResponseParserLaws.AcceptedHasNoExcess` | backend/src/federation/remote-transport.ts:184-188 | A message that is not refused as invalid has no complete message as a proper prefix. |
| `ResponseParserLaws.EarlyEnd` | backend/src/federation/remote-transport.ts:178-182 | A connection that ends early never yields a response. |
| `ResponseParserLaws.DecimalRoundTrip` | backend/src/federation/remote-transport.ts:120-127 | A printed Content-Length is accepted and read back. |
| `ResponseParserLaws.HexRoundTrip` | backend/src/federation/remote-transport.ts:150-152 | A printed chunk size is read back and has no more digits than needed. |
| `ResponseParserLaws.EveryPieceIsAChunk` | backend/src/federation/remote-transport.ts:150-154 | Any non-empty piece below 2^32 bytes is a valid chunk, and 0 a valid last chunk. |
| `RemoteResponseParser.Parser.Feed` | backend/src/federation/remote-transport.ts:139-176 | The buffer-filling loop computes the byte-wise reference: same state, response and error code for every chunk. |
| `RemoteResponseParser.Parser.End` | backend/src/federation/remote-transport.ts:178-182 | The end of the connection completes a close-delimited body and is an error in every other open mode. |
| `RemoteResponseParser.Parser.HeaderBlock` | backend/src/federation/remote-transport.ts:102-137 | The framing that a parsed header block selects, with its error codes in order. |
| `RemoteResponseParser.Parser.HeaderByte` | backend/src/federation/remote-transport.ts:142-149 | One header byte: the 8192-byte limit, then the terminator. |
| `RemoteResponseParser.Parser.SizeLine` | backend/src/federation/remote-transport.ts:150-154 | A chunk-size line of 1 to 8 hex digits sets the remaining size or fails with the right code. |
| `RemoteResponseParser.Parser.CopyData` | backend/src/federation/remote-transport.ts:163-172 | The block copy appends as many bytes as framing and event allow, and completes only on the exact last byte. |
| `RemoteResponseParser.Parser.Finish` | backend/src/federation/remote-transport.ts:184-188 | Completion is reported once, with the collected bytes, and only without excess bytes. |
| `Playback.ComputePosition` | backend/src/playback/playback.machine.ts:58-110 | One modulus and at most n subtractions return what the unbounded rotation returns, for every anchor, list and time, with the same errors. |
| `Playback.Jump` | backend/src/playback/playback.machine.ts:85-96 | The bounded loop ends at the place of the unbounded rotation, also for lists that stop at an untimed entry and for elapsed values beyond a shortened duration. |
| `Playback.DropCycles` | backend/src/playback/playback.machine.ts:86-89 | Dropping whole cycles keeps the place of the rotation. |
| `Playback.RotateModulo` | backend/src/playback/playback.machine.ts:87-88 | For fully timed lists, rotating by the remainder of the cycle is rotating by all of it. |
| `Playback.RotateCompose` | backend/src/playback/playback.machine.ts:90-95 | Rotating in two stages is rotating once. |
| `Playback.Reanchor` | backend/src/playback/playback.machine.ts:81-109 | Evaluating at t1, anchoring there and evaluating at t2 equals evaluating once at t2. |
| `Playback.PauseThenResume` | backend/src/playback/playback.machine.ts:157-164 | Pausing at t1 and resuming at t2 shifts every later position by exactly t2 - t1. |
| `Playback.PauseHoldsPlace` | backend/src/playback/playback.machine.ts:157-160 | While paused the place does not move. |
| `Playback.TransitionBoundary` | backend/src/playback/playback.machine.ts:97-109 | The index is constant on [at, nextTransitionAt) and is the cyclic successor with elapsed 0 at nextTransitionAt. |
| `Playback.AdvanceShowsSuccessor` | backend/src/playback/playback.machine.ts:169-171 | Advancing shows the cyclic successor of what is shown, from its beginning, in the same status. |
| `Playback.ChangeKeepsItem` | backend/src/playback/playback.machine.ts:142-156 | A changed list keeps the shown item and its elapsed time wherever it is now; a removed item gives way to the first. |
| `Playback.ReachableStates` | backend/src/playback/playback.machine.ts:112-172 | After any actions with any clock readings: running or paused implies a non-empty list with the anchor in range, evaluatedAt never decreases, 0 <= elapsed <= anchorAt <= evaluatedAt <= 8e15. |
| `Playback.ReachablePositions` | backend/src/playback/playback.machine.ts:51-110 | For a reachable anchor and a valid clock everything position computes is in range, and its arithmetic stays below 2^53. |
| `Playback.PositionsUntilTheLastDay` | backend/src/playback/playback.machine.ts:51-110 | Every session evaluated at a time has a position exactly if that time is at least one day before 8e15. |
| `Playback.RefusedAtTheEnd` | backend/src/playback/playback.machine.ts:97-109 | One anchor is refused exactly when it rotates and the timed entry it shows is still the one shown when supported time ends. |
| `Playback.EarlyIsAccepted` | backend/src/playback/playback.machine.ts:51-110 | A check before the call: up to one day before 8e15, or without rotation, a valid anchor has a position. |
| `Playback.StartedOnTheLastDay` | backend/src/playback/playback.machine.ts:97-109 | A concrete session that starts on the last day with two day-long entries has none. |
| `Playback.CycleIsSafe` | backend/src/playback/playback.machine.ts:86-89 | The cycle sum of a valid list is a safe integer. |
| `PlaybackDriver.DueFollowsRotation` | backend/src/playback/playback.service.ts:404-428 | A handled due event shows what the rotation shows at that time, leaves every later position as it was and schedules the next transition strictly later. |
| `PlaybackDriver.AdvanceChanges` | backend/src/playback/playback.service.ts:404-446 | A due event changes the row exactly when its version is current, and then by one version, with its dueAt current and reached. |
| `PlaybackDriver.AssignNeverConflictsWithItself` | backend/src/devices/content-assignment.service.ts:79-103 | The stop-then-start pair never fails its own version or sequence check, nor the guard that playback is stopped. |
| `PlaybackDriver.StopMovesOn` | backend/src/playback/playback.service.ts:274-302 | Stopping an active row is never a no-op: one version on, pointer and sequence untouched. |
| `PlaybackDriver.PersistEffect` | backend/src/playback/playback.service.ts:479-573 | What a persist writes: the new row, superseded schedules, the next one, and the desired pointer exactly when something is shown. |
| `PlaybackRuns.RunKeeps` | backend/src/playback/playback.service.ts:238-573 | In every history: rows hold a consistent anchor of a published list with its exact next transition, versions of due events are distinct and at most the current one. |
| `PlaybackRuns.VersionCountsChanges` | backend/src/playback/playback.service.ts:491-510 | The stored version is the number of changes ever persisted. |
| `PlaybackRuns.VersionStep` | backend/src/playback/playback.service.ts:491-510 | The row changes only with its version; commands and due events move it by exactly one. |
| `PlaybackRuns.DueAppliesOnce` | backend/src/playback/playback.service.ts:368-446 | Retries and takeovers included, a due event changes the row at most once, from exactly its own version and dueAt, and not early. |
| `PlaybackRuns.TransitionNeverLost` | backend/src/playback/playback.service.ts:524-562 | While a transition is scheduled exactly one due event carries the current version, with that time; it is unhandled and not delivered. |
| `PlaybackRuns.CommandRunsOnce` | backend/src/playback/playback.service.ts:598-648 | A command that succeeded once answers the same for ever, in any letter case of its key, without running again; another request under the key is refused. |
| `PlaybackService.Service.ExecuteInTransaction` | backend/src/playback/playback.service.ts:238-302 | The command transaction, with every error case, is the one the laws are about; a failure leaves no trace. |
| `PlaybackService.Service.HandleDue` | backend/src/playback/playback.service.ts:368-446 | The due-event transaction: fence first and last, effect recorded with the change, a failure undoes everything. |
| `PlaybackService.Service.Write` | backend/src/playback/playback.service.ts:479-562 | Computes the position, checks publications, writes row, schedule and pointer. |
| `PlaybackService.Service.SupersedePending` | backend/src/playback/playback.service.ts:526-533 | Pending schedules become delivered; running ones stay. |
| `PlaybackService.Service.SubmitCommand` | backend/src/playback/playback.service.ts:598-648 | The receipt and the change commit together. |
| `PlaybackService.Service.SetDesiredRevision` | backend/src/publications/publication-persistence.service.ts:102-153 | Switching the shown revision counts, repeating it does not. |
| `DaysUntil.CountDays` | contracts/src/days-until.ts:65-76 | The closed form equals counting day by day, for every pair of dates and both modes. |
| `DaysUntil.CountAdditive` | contracts/src/days-until.ts:65-76 | Counting is additive over adjoining ranges. |
| `DaysUntil.CountedOffsetIsLeast` | contracts/src/days-until.ts:79-92 | The computed target is the least one whose range counts exactly n days. |
| `DaysUntil.AddedDaysExact` | contracts/src/days-until.ts:79-99 | A target is returned exactly when the least one is within the supported range, and it is that one. |
| `DaysUntil.AddCountedDays` | contracts/src/days-until.ts:79-99 | The whole function, with its invalid and zero-duration cases. |
| `DaysUntil.CalculateDaysUntil` | contracts/src/days-until.ts:101-142 | The calculation with the reference counts; the clamps of the source never bite. |
| `DaysUntil.ProgressLaws` | contracts/src/days-until.ts:125-142 | Elapsed plus remaining is the total, and progress stays in 0..100 and is monotone in today. |
| `DaysUntil.DurationIsTotal` | contracts/src/days-until.ts:112-134 | A configured duration comes back as the total. |
| `WorkerMetricsRuns.Conservation` | backend/src/observability/worker-metrics.ts:107-152 | For any stream of samples every coordinate of the total is the sum, over each owner's uninterrupted presence, of last accepted minus first. |
| `WorkerMetricsRuns.NeverDecreases` | backend/src/observability/worker-metrics.ts:112-152 | No coordinate of the total ever decreases. |
| `WorkerMetricsRuns.AlwaysExportable` | backend/src/observability/worker-metrics.ts:112-157 | Every exported job histogram is cumulative with its last bucket equal to its count; at most 16 baselines are kept. |
| `WorkerMetrics.DeltaIsDifference` | backend/src/observability/worker-metrics.ts:79-98 | An accepted delta is the coordinate-wise difference and never negative. |
| `WorkerMetrics.AddToValue` | backend/src/observability/worker-metrics.ts:130-147 | One sample adds exactly what its owner's baseline moved, and nothing when it is the first. |
| `MetricsAccumulator.ComputeDelta` | backend/src/observability/worker-metrics.ts:79-98 | The loops of sampleDelta compute the delta or detect the first regressing family. |
| `MetricsAccumulator.Accumulator.ObserveReadings` | backend/src/observability/worker-metrics.ts:112-152 | Validation, accumulation and the final assignment; an observation that throws changes nothing. |
| `MetricsAccumulator.Accumulator.Check` | backend/src/observability/worker-metrics.ts:117-126 | Owners are valid and distinct and every sample parses, or the whole observation is refused. |
| `MetricsAccumulator.Combine` | backend/src/observability/worker-metrics.ts:51-69 | The combining loop over at most 16 samples, stopping at the first sum that is not safe. |
| `MetricsAccumulator.CombinedIsSum` | backend/src/observability/worker-metrics.ts:51-69 | Combining succeeds exactly when every coordinate's sum over all processes is a safe number, and then it is that sum. |
| `MetricsRegistry.LaterSnapshotIsDelta` | backend/src/observability/metrics-registry.ts:62-72 | A later snapshot of a registry always gives a valid delta to an earlier one; each bucket of it counts exactly the accepted durations in between. |
| `MetricsRegistry.BucketsTally` | backend/src/observability/metrics-registry.ts:62-72 | Each bucket is the number of accepted durations up to its bound; the last one is the count. |
| `MetricsRegistry.Registry.RecordJob` | backend/src/observability/metrics-registry.ts:62-82 | The family is replaced only after every addition was checked. |
| `RemoteRuns.RevisionNeverDecreases` | backend/src/federation/remote-worker.service.ts:210-262 | Over every interleaving of workers the cached revision never goes back, and while its number stays so do feed hash and remote id; the latest local revision holds the recorded feed. |
| `RemoteRuns.ObsoleteJobsChangeNothing` | backend/src/federation/remote-worker.service.ts:217-222 | A job of an outdated version or disabled subscription only completes itself. |
| `RemoteRuns.FailureKeepsCache` | backend/src/federation/remote-worker.service.ts:235-262 | A failed attempt keeps the cached revision, counts up, opens the circuit for 30 s at the third failure and ends the job exactly when it is dead-lettered. |
| `RemoteRuns.SuccessMovesFollowers` | backend/src/federation/remote-import.service.ts:79-104 | A new feed is appended once and the active, non-playing devices that show this publication move to it; a reusable revision changes nothing. |
| `RemoteRuns.OneJobAtWork` | backend/src/federation/remote-job.ts:12-39 | Of two live events of one version, one belongs to a job whose result is already recorded. |
| `RemoteRuns.OneLiveExactly` | backend/src/federation/remote-job.ts:12-39 | From the creation of a subscription on, in every run a version has at most one live event exactly as long as no schedule creates a job of it while a completed one waits for its acknowledgement. |
| `RemoteRuns.ScheduleDoubles` | backend/src/federation/remote-job.ts:12-39 | One schedule gives a version a second live event exactly when its guard passes (enabled, forced or due, no job at work, id new) and a completed job of the version waits for its acknowledgement. |
| `RemoteRuns.TwoLiveEvents` | backend/src/federation/remote-job.ts:14-18 | A concrete run of four steps with two live events of one version. |
| `RemoteRuns.RunKeepsJobs` | backend/src/federation/remote-job.ts:12-39 | In every run jobs and events exist together and no version has two uncompleted jobs with live events. |
| `RemoteRuns.ScheduleRespectsCircuit` | backend/src/federation/remote-job.ts:12-39 | A new job is due no earlier than the circuit allows, only when no job is at work, and the next period starts from it. |
| `RemoteRuns.UpdateStartsOver` | backend/src/federation/remote-subscriptions.service.ts:89-110 | After an update nothing of an older version is pending, the circuit is closed, the cache stays, and an enabled subscription has its next job due at once. |
| `RemoteStore.Store.Schedule` | backend/src/federation/remote-job.ts:12-39 | The scheduling statements in order are the transaction the laws are about. |
| `RemoteStore.Store.UpdateSubscription` | backend/src/federation/remote-subscriptions.service.ts:89-110 | A new version, superseded pending events and a fresh schedule. |
| `RemoteStore.Store.Import` | backend/src/federation/remote-import.service.ts:79-104 | Checks in order, then reuse or append, then the device pointers. |
| `RemoteStore.Store.MoveFollowers` | backend/src/federation/remote-import.service.ts:98-102 | The loop over assigned devices moves exactly the followers. |
| `RemoteStore.Store.PersistResult` | backend/src/federation/remote-worker.service.ts:210-262 | The worker's fenced transaction with every way to fail; a failure restores all tables. |
| `InteractionRuns.CommitsOnce` | backend/src/interactions/interaction.service.ts:101-147 | A handler's effects commit at most once per device and event id. |
| `InteractionRuns.ReplayForever` | backend/src/interactions/interaction.service.ts:101-107 | A replay at any later time returns the stored result without any change; another event under the id is refused. |
| `InteractionRuns.RateWindows` | backend/src/interactions/interaction.service.ts:76-85 | For any clock readings at most 60 new commands commit in any minute and 8 in any second, and a window once left is never entered again. |
| `InteractionRuns.SequencesIncrease` | backend/src/interactions/interaction.service.ts:112-115 | Accepted client sequences strictly increase per credential; the stored one is the last. |
| `Interactions.OneCommand` | backend/src/interactions/interaction.service.ts:87-157 | Either nothing changes, or a receipt for a fresh event appears with its rate; unless the command is accepted, nothing its handler wrote before it ended remains, and no sequence moves. |
| `Interactions.LogCommits` | backend/src/interactions/interaction.service.ts:125-154 | Replaying the statements of the transaction, with those after the savepoint taken back when the handler does not return, commits its writes all or none. |
| `Interactions.AcceptedCommand` | backend/src/interactions/interaction.service.ts:107-147 | An accepted command was timely and permitted, came from the device and credential it names, and all writes of its handler are committed. |
| `Interactions.PermitOnlyOffered` | backend/src/interactions/interaction.service.ts:114-124 | The lookup lets a command pass exactly if the rendered publication revision it names offers the action on the target, first in the schema its handler knows, with a valid payload. |
| `Interactions.AcceptedSequence` | backend/src/interactions/interaction.service.ts:110-150 | An accepted client sequence was above the stored one and replaces it. |
| `InteractionService.Service.ConsumeRate` | backend/src/interactions/interaction.service.ts:76-85 | The window counters, written only when both limits allow. |
| `InteractionService.Service.ExecuteCommand` | backend/src/interactions/interaction.service.ts:87-157 | The whole transaction, with savepoint and final re-authentication, is the one the laws are about. |
| `InteractionService.Service.RunHandler` | backend/src/interactions/interaction.service.ts:125-142 | The handler writes statement by statement; if it does not return a valid result, all tables are as they were at the savepoint. |
| `Utf8.ByteLength` | contracts/src/json-value.ts:11-18 | The code-point loop is the length of the UTF-8 encoding (section 3 of RFC 3629) for all UTF-16 strings, lone surrogates as U+FFFD. |
| `Utf8.OctetsAppend` | backend/src/isolation/guest-runtime.ts:80-92 | Encoding piece by piece is encoding the whole, unless a cut separates a surrogate pair. |
| `JsonText.PrintSize` | backend/src/isolation/isolation-contract.ts:37-72 | The octets added up piece by piece are the octets of the printed text. |
| `JsonText.QuoteSizeIsSize` | backend/src/isolation/isolation-contract.ts:33-36 | Octets of a quoted string, escapes and lone surrogates included. |
| `JsonText.NormalPrints` | backend/src/isolation/isolation-contract.ts:41 | The copy prints like the original: only negative zero changes, and it prints as zero. |
| `JsonBudget.CloneIsolatedJson` | backend/src/isolation/isolation-contract.ts:28-75 | Accepts exactly what nests at most 16 deep, avoids forbidden keys and prints within the budget, except an array that spends all of an odd budget on one-octet items; returns an equal copy. |
| `JsonBudget.KeyBoundsAreImplied` | backend/src/isolation/isolation-contract.ts:46-55 | The key-count guards follow from the size with that one exception, so never for an even budget. |
| `JsonBudget.OddBudgetRefuses` | backend/src/isolation/isolation-contract.ts:48 | A concrete array of three octets that a budget of three refuses. |
| `JsonBudget.Cloner.Copy` | backend/src/isolation/isolation-contract.ts:37-73 | The recursive copy adds exactly the octets of its value and fails exactly when something does not fit. |
| `GuestPrinter.Printer.Add` | backend/src/isolation/guest-runtime.ts:80-92 | The UTF-16 scan counts the UTF-8 size and stops exactly when the budget is exceeded. |
| `GuestPrinter.Printer.Serialize` | backend/src/isolation/guest-runtime.ts:93-136 | The counting printer returns the compact text and its counter grew by that text's octets. |
| `GuestPrinter.SerializeValue` | backend/src/isolation/guest-runtime.ts:93-143 | Guest output is the compact JSON text, its counter is the UTF-8 length, and it accepts what the copy accepts under the same budget; each error code is given only to a value that has its problem. |
| `Gateway.AlwaysIndexed` | backend/src/device-platform/web-display.gateway.ts:186-263 | In every reachable state the index is exactly the open authenticated connections by device, no group is empty or above 4, and open plus terminating sockets stay within 1024. |
| `Gateway.LastRevisionNeverDecreases` | backend/src/device-platform/web-display.gateway.ts:153-163 | However deliveries interleave, a connection's last revision never decreases lexicographically. |
| `Gateway.CompareIsLexicographic` | contracts/src/websocket.ts:35-43 | The comparison is a total preorder: assignment first, then render generation with null as zero. |
| `Gateway.ConnectionBudget` | backend/src/device-platform/web-display.gateway.ts:203-212 | While its socket is open and the clock does not go back, a connection passes at most 20 messages plus 2 per second in any interval. |
| `Gateway.BudgetHolds` | backend/src/device-platform/web-display.gateway.ts:206-212 | For any clock readings the messages passed cost at most the burst plus what forward movement of the clock earned. |
| `Gateway.ClockStepDoublesBurst` | backend/src/device-platform/web-display.gateway.ts:206-207 | One backward step of the clock lets forty messages pass between two equal readings. |
| `Gateway.QueuesBounded` | backend/src/device-platform/web-display.gateway.ts:208-222 | No queue exceeds eight messages, and an unauthenticated connection has at most one, which is being worked on. |
| `Gateway.OneAttemptToLogIn` | backend/src/device-platform/web-display.gateway.ts:203-223 | Before its login is finished a connection survives a message exactly if it is its one attempt to authenticate and a token is left; a second message ends it. |
| `DisplayGateway.WebDisplayGateway.AcceptClient` | backend/src/device-platform/web-display.gateway.ts:186-201 | A socket is registered only below the connection limit; the invariant is kept. |
| `DisplayGateway.WebDisplayGateway.ReceiveMessage` | backend/src/device-platform/web-display.gateway.ts:203-223 | Refill, spend, protocol checks, queueing or disconnection; the invariant is kept. |
| `DisplayGateway.WebDisplayGateway.LogIn` | backend/src/device-platform/web-display.gateway.ts:235-246 | The continuation after authentication joins the group or disconnects at the per-device limit. |
| `DisplayGateway.WebDisplayGateway.CleanUp` | backend/src/device-platform/web-display.gateway.ts:371-391 | The connection leaves its group and an emptied group disappears. |
| `DisplayGateway.WebDisplayGateway.DisconnectClient` | backend/src/device-platform/web-display.gateway.ts:393-405 | The socket keeps its place among the terminating ones. |
| `DisplayGateway.WebDisplayGateway.MarkDelivered` | backend/src/device-platform/web-display.gateway.ts:155-163 | A slower send does not roll back a newer revision. |
| `DisplayGateway.WebDisplayGateway.Shutdown` | backend/src/device-platform/web-display.gateway.ts:70-80 | Nothing is left open, indexed or terminating. |
| `Executor.AlwaysAccounted` | backend/src/isolation/isolated-executor.ts:27-147 | Over every sequence of submissions, aborts, timeouts, closed children and shutdowns: active <= 2, pending <= 16, admitted = pending + active + completed + failed, every task in one place, no idle capacity while a task waits. |
| `Executor.AccountedFromEmpty` | backend/src/isolation/isolated-executor.ts:17-147 | The same from the empty queue on: every task ever admitted is waiting, running or settled, in any history. |
| `Executor.SettlesOnce` | backend/src/isolation/isolated-executor.ts:59-120 | Each task settles exactly once and keeps its outcome; no admitted task is lost. |
| `Executor.NothingAfterShutdown` | backend/src/isolation/isolated-executor.ts:121-147 | After the shutdown nothing is pending, nothing is admitted, no child starts or completes, and all is settled once the children have closed. |
| `Executor.DrainsInOrder` | backend/src/isolation/isolated-executor.ts:121-123 | Waiting tasks leave the queue in the order in which they came. |
| `IsolatedExecutor.Queue.SubmitTask` | backend/src/isolation/isolated-executor.ts:126-138 | Refusals in order, or admission and draining. |
| `IsolatedExecutor.Queue.DrainQueue` | backend/src/isolation/isolated-executor.ts:121-123 | The loop starts waiting tasks in order while there is a free place. |
| `IsolatedExecutor.Queue.OnChildClosed` | backend/src/isolation/isolated-executor.ts:104-117 | Settlement of a closed child in the order of its reasons, then draining. |
| `IsolatedExecutor.Queue.RejectWaiting` | backend/src/isolation/isolated-executor.ts:31-36 | A waiting task is removed and settled once. |
| `IsolatedExecutor.Queue.StopTask` | backend/src/isolation/isolated-executor.ts:83-88 | A running child is killed at most once, with the first code. |
| `IsolatedExecutor.Queue.Close` | backend/src/isolation/isolated-executor.ts:141-147 | Everything waiting is rejected, everything running stopped once. |

## Left out

- Prisma, SQLite locking, Redis, BullMQ, sockets, TLS, DNS, child processes and QuickJS: only the atomic steps or events they deliver are modelled.
- Row retention: runs of the outbox, receipts and effects never delete rows, so "for ever" ends where a cleanup job deletes them; its code is not part of this model.
- Claims without a budget: the single-row compare-and-set outside a transaction is modelled as the same atomic step; two racing claimers then differ only in that the loser claims nothing.
- Timer recipients of `prepare` are resolved from live rows; the snapshot laws cover events with explicit device ids.
- OutboxStore.Store.Prepare: proved with devices and consumers fixed, because with ones that keep arriving the loop need not end; the interleaved form is FanoutRuns.VisibleSnapshot.
- OutboxStore.Store.BeginTarget: the code checks the fence and updates in two statements; the method does both at once, while FanoutRuns lets the update come at any later time.
- The outbox dispatcher's polling loop and the device coordinator's lease timers: they only decide when the modelled steps happen.
- The regular expressions of the HTTP header parser: the parser reads a header block through a function from bytes to the fields that select framing; terminator, chunk-size lines and body are byte-exact.
- JavaScript `Date`, time zones and skipped civil days: dates are day ordinals, with weekday = (ordinal + 4) mod 7. `Math.round` of the progress ratio is exact rational rounding.
- Floating-point rounding of histogram sums: they are exact reals. The 64 KB text limit and JSON syntax of a metric sample are not modelled.
- Request histograms, gauges and the Prometheus text of the metrics registry: the same histogram code or one-branch checks.
- The desired-revision change events and the `playback.state.changed` notification that a persist also inserts: they carry no state of the driver.
- Entry `itemId` and the playlist content hash are compared by the code when lists are read; a published list is modelled as immutable, so only its validation can fail.
- RemoteStore.Store.PersistResult: what a worker downloads is an argument, so the laws hold for any result; `download` itself, decoding of artifacts and `verifyCached` are not modelled.
- Limits on feed and artifact sizes of remote sync, and the ETag and token checks: one-branch checks.
- InteractionService.Service.ExecuteCommand: the verdict of a handler's payload check, the writes of the handler and how it ends are arguments of the step, so the laws hold for every handler; which actions a publication revision allows is a row of the model, not parsed from its content.
- Proxies, getters, prototypes, symbols and cycles in JSON input: values are plain trees.
- GuestPrinter.SerializeValue: a value that has both problems may be reported with either code; which one is thrown depends on what the traversal meets first.
- `detachedMetadata`: the same counting copy as `cloneIsolatedJson` with other limits.
- The gateway's heartbeats, credential rechecks, transition timers and push coalescing: they end in the modelled steps (disconnect, delivered).
- Gateway.AlwaysIndexed: token counts are exact thousandths of a message, not binary floating point.
- The executor's output collection and exit parsing: a closed child's verdict is an argument.
- CRUD services, controllers, DTOs, seed data, the front end, logging and field validators: plumbing or one-branch checks.
