# Probara: a verified model

Probara is an uptime monitor. Its correctness lives in a few pieces: the transaction that records a
check result, the dirty ledger behind the hourly rollups, the arithmetic that turns recorded state
intervals into availability figures, the queue in front of the local inference model, the decision
pipeline around that model, alert routing, and calendar periods. This project models those pieces and
proves what they promise over every input, every schedule or every reachable state.

`dafny verify dfyconfig.toml` checks the whole project.

## How it is laid out

- **Recording** (`MonitorState`, `Recording`, `Protocol`, `RecordingSafety`, `LedgerSafety`,
  `LocationParity`, and the example runs `SoloRuns`, `RedeliveryRun`, `OverCountRun`). The tables are maps
  and sequences. A recording is a transaction in three steps (begin with a fixed `NOW()`, take the row
  lock and stage its writes, commit) that interleaves freely with every other writer of
  monitor state, with redelivered and reordered results, with the rollup consumer, with the pruner and
  with the clock. `Recording.Store` is the imperative form of `Record`; `Protocol.Step` lists the steps. The
  history kept beside the tables holds what was delivered (evidence, its location, who was polled and
  when), never the state that came of it; the state is proved to be the fold.
- **Timeline integration** (`Multirange`, `Timeline`, `TimelineScope`, `TimelineRead`, `TimelineHistory`,
  `TimelineMeaning`). Time is integer
  ticks; a multirange is a normalised sequence of half-open ranges, proved against tick sets; the query
  is proved against a pointwise classification of each tick, and finally joined to the recording
  protocol, so that the figures are about timelines the protocol really writes. `TimelineHistory` proves
  that such a timeline is the history of the accepted results; `TimelineMeaning` says what each recorded state
  counts as, row by row.
- **Fast paths and displays** (`RollupCursor`, `Downtime`, `ScopeDowntime`, `RawSeries`, `RollupBatch`).
  A window read partly from rollups equals the plain count; merged downtime is the exact union; batched
  results equal single ones.
- **Inference queue** (`InferenceQueue`, `InferenceSafety`, `InferenceServer`). Each step is what one
  asyncio task does between two awaits. `InferenceServer.DecideServer` is the imperative form: `Enter`,
  `EndWait`, `EndCheck` and `EndAwait` are the code and are proved to be those steps; `Arrive`, `LeaveWait`,
  `Submit` and `LeaveAwait` state what a caller gets from each in a valid server.
- **Advisor and decisions** (`Dependencies`, `Candidates`, `Advisor`, `Decisions`, `BestChoice`,
  `EvidenceRules`, `Analyzer`, `Labels`, `SharedIds`).
- **Alert routing** (`AlertRouting`): the Go classification and the SQL fragments, the latter evaluated
  with three-valued logic.
- **Calendar** (`Civil`, `IsoWeeks`, `Periods`, `PeriodKeys`, `GapZones`, `DayBuckets`) and **printers**
  (`SeriesKeys`, `EvidenceText`, `EvidenceDecoding`, `EvidenceInjective`); `Common`, `Text` and `Decimal` are shared vocabulary.

## Findings

Where a promise does not hold of the code as written, the code is modelled as it is, an input is given
and the exact condition is proved.

- *Once per key* holds while the result row is retained. A redelivery after its row was pruned runs the machine
  again exactly when: without a location, the monitor has none selected and the result is synthetic or still
  the newest evidence (`RecordingSafety.RedeliveryRunsAgain`); at a location, the location is selected and
  nothing newer was accepted there since its row was last cleared, so a pause or a reselection makes it accept
  older evidence too (`RecordingSafety.RedeliveryRunsAgainAtLocation`). The runs are
  `RedeliveryRun.PrunedKeyRunsTwice`, `RedeliveryRun.PrunedKeyRunsTwiceAtLocation` and
  `RedeliveryRun.ClearedLocationForgets`.
- *A single-location monitor behaves identically to a location-less one* (S-A7, docs/state-semantics.md:141) holds
  for results alone (`LocationParity.SingleLocationParity`) and fails around silence and pauses. The watchdog
  resets a silent location-less monitor but not a location's row, which then goes on counting failures: the
  next failure is suspect here and down there (`LocationParity.SilenceBreaksParity`). A pause deletes the
  location's row with its evidence time but keeps the monitor's, so a late result is dropped here and accepted
  there (`LocationParity.ResumeBreaksParity`). `LocationParity.ParityExactly`: the two look the same throughout
  a run if and only if it has no such turn.
- *The wedge alarm* can sound with nothing running: the in-flight clock is set before the submission and
  outside the `try` that clears it, so a submission refused by an executor that was shut down leaves it
  running. It is about a running batch exactly when no submission of the run was refused
  (`InferenceSafety.AlarmIsReal`, `InferenceSafety.FalseAlarm`).
- *Reachability is what the alerter delivers* fails for groups inside groups, in both directions. The alerter
  opens an alert for every ancestor group, but an inner group's own alert is rolled up, while the status looks
  one group up. A channel on the inner group only: shown as reachable, nobody is paged
  (`AlertRouting.NestedGroupsMislead`). A channel on the outer group only: shown as unreachable, the outer
  group pages (`AlertRouting.OuterGroupStillPages`). `AlertRouting.StatusIsDelivery` is the exact condition
  and `AlertRouting.FlatGroupsAgree` says that groups one level deep always meet it.
- *Unsuppressed means eligible* fails with the policy switched off while the grace clock of an earlier
  root cause is still running (`AlertRouting.UnsuppressedIsEligible`, `AlertRouting.PolicyOffStillDelays`).
- *The best choice does not depend on map order* fails exactly when the empty key ties at the top
  (`BestChoice.OrderIndependence`); the catalogue has no empty key.
- *Labels follow their own evidence* fails when two decisions share an id and the last one's answer is not
  supported by the other's evidence (`Labels.LabelsAreSupported`, both directions). Within one call of at most
  fifty a valid reply rules it out (`Labels.OneCallHasDistinctIds`); across calls it rests on ids being fresh
  UUIDs. `SharedIds.SharedIdMislabels` is an analysis of fifty-one monitors, both calls answered validly, that
  draws one id twice.
- *Batched rollup figures equal single ones* holds for the daily series, the sampled rates, the mean latency and
  the downtime, and fails for the latest status when two monitors were last checked at the same instant with
  different statuses (`RollupBatch.TiedStatusDiffers`). Every list of the same rows shows the same status
  exactly when the rows at the greatest check time agree (`RollupBatch.LatestStatusAgrees`). The batch also
  never applies interval availability (shared/analytics/repository.go:95-104), so method, availability and
  coverage are not among the figures compared.
- *The hourly bars only ever under-count* (shared/analytics/rollup_cursor.go:47-50): between publishing a
  rebuilt hour and advancing the cursor a clean bar over-counts by exactly the hour's rows past the cursor
  (`RollupCursor.CleanBarError`); `OverCountRun.PublishedBarOverCounts` is a run whose bar shows two checks for
  one. Once the cursor has advanced it is exact (`RollupCursor.AdvancedBarIsExact`).
- *A period carries its own key, parses back and has a next and a previous one* fails where a skipped midnight
  resolves to the day before, as midnight of 1 October 2017 does in America/Asuncion: that month carries
  September's key, and the month after September is September (`GapZones.SkippedMonthStart`). The exact
  conditions on the boundary midnights are `Periods.KeyIsRight`, `PeriodKeys.ParseInvertsKey`,
  `Periods.NextIs` and `Periods.PreviousIs`.
- *Periods tile time* exactly where the local date does not come back over a boundary and start and end are the
  first instants of their days (`Periods.PeriodsTile`, in terms of midnights `Periods.TilesByMidnights`). It
  fails after a skipped midnight, because `AddDate` carries the time of day that midnight resolved to over to
  the end (`GapZones.SkippedMidnightOverlaps`; midnight of Monday 22 March 2021 was skipped in Asia/Tehran),
  and where the clock goes back over midnight (`GapZones.RepeatedDayNeverTiles`; on 1 November 2009 in
  America/St_Johns).
- *`DayBuckets` terminates* fails on a span that holds a midnight which resolves to the day before. The loop
  exits exactly when every midnight it visits lands on its day (`DayBuckets.ExitsExactly`,
  `DayBuckets.SkippedMidnightLoops`).
- *Series keys parse back* exactly under the condition of `SeriesKeys.RoundTripExactly`; a brace in the name
  is harmless when there are no attributes and the name does not end in a closing brace.
- *The two evidence validators accept the same objects* fails in two ways, and only those
  (`EvidenceDecoding.ValidatorsAgree`). The Go decoder matches struct fields without regard to case, so it
  accepts an object that Python would accept respelled (`EvidenceDecoding.CaseMatters`); and it checks the type
  of a value that a repeated key overwrites, which Python never sees (`EvidenceDecoding.RepeatMatters`).
- The watchdog's re-aggregation does not read the location set again under the lock, so it can restart a
  monitor that has just lost its last location; `RecordingSafety.StateSafety` counts that as a restart.

## Hypotheses

- No recording transaction outlives one hour (the contract stated above the two retention horizons), and
  no two `clock_timestamp()` readings coincide.
- Locations: the calendar results ask something only of the days a period touches, by name in each lemma. The
  first day of a period, the day it ends on and, for weeks, 4 January are not skipped as a whole
  (`Periods.Near`), and the time of day carried over to the end exists there (`Periods.Carries`). A
  skipped day in between does no harm: `GapZones.SkippedDayIsHarmless`, as 30 December 2011 in Pacific/Apia.
  Tiling asks that the date goes back by at most a day (`Periods.Steady`). `DayBuckets.ExitsExactly` does
  exclude a location that skips a whole day: midnights are a second apart and resolve to their day or the
  day before; one-day buckets further need a date that never goes back (`Periods.FlowOk`).
- Groups are groups of their members' tenant, and `member_alert_rollup` holds one of the two values of its CHECK
  constraint (shared/db/migrations/000058_add_member_alert_rollup.up.sql:16-17); only
  `AlertRouting.FlatGroupsAgree` needs either.
- The dashboard reads its clock at most a day behind the database's (`RollupCursor.RollingDayIsExact`).
- asyncio's lock is the one of Python 3.13: a release wakes the first waiter, which takes the lock when its
  task next runs; a cancelled waiter passes the wake-up on.

## Model

| member | source | states |
|---|---|---|
| `MonitorState.RunFromStart` | shared/monitorstate/state.go:41-62 | from unknown, a run of results is down exactly when some prefix of its trailing failure run reached the threshold read at that step, and the failure count is the length of that trailing run |
| `MonitorState.TransitionMeans` | shared/monitorstate/state.go:41-62 | a transition reports an outage opened exactly when it enters down, closed exactly when it leaves down, and changed exactly when the state changes |
| `MonitorState.OutagesBalance` | shared/monitorstate/state.go:41-62 | over any run outages reported opened outnumber those closed by one exactly while the monitor is down |
| `MonitorState.SeverityMonotone` | shared/monitorstate/state.go:78-111 | worsening any per-location state never improves the aggregate |
| `MonitorState.QuorumAntitone` | shared/monitorstate/state.go:78-111 | a larger quorum never worsens the aggregate, for every count and every quorum, clamped or not |
| `MonitorState.StaleNeverRaises` | shared/monitorstate/freshness.go:34-67 | with no new evidence, time passing never raises the aggregate's severity |
| `MonitorState.SingleLocation` | shared/monitorstate/state.go:78-111 | with one selected location the aggregate is that location's vote, whatever the quorum |
| `MonitorState.VerdictsMean` | shared/monitorstate/state.go:78-111 | down exactly when some set of selected locations as large as the quorum, between one and all of them, is down throughout; degraded when some are but no such set is; otherwise the worst of what is reported |
| `Recording.RecordIntervalKeepsChain` | shared/monitorstate/intervals.go:40-80 | closing and opening at any clock reading, however old, keeps a monotone gap-free chain with one open row and keeps all earlier rows |
| `Recording.Store.InsertResult` | shared/monitorstate/record.go:200-250 | inserts once per (job, source) and marks the hour dirty exactly for a new monitor-source row at or after the mark horizon |
| `Recording.Store.RecordIntervalTx` | shared/monitorstate/intervals.go:40-58 | the new interval list is the close-clamp-open of the old one, and nothing else changes |
| `Recording.Store.Record` | shared/monitorstate/record.go:86-179 | the tables and the reported transition after the step-by-step transaction are those of the atomic plan used in the protocol |
| `Recording.ToggleMeans` | api/internal/services/monitors/repository.go:811-865 | a toggle to the present setting changes nothing; a real one leaves unknown, no failures, no location rows, an opened interval, and the rest as it was |
| `Recording.StaleMeans` | scheduler/internal/scheduler/watchdog.go:155-199 | the watchdog silences exactly an enabled monitor of known state last heard of more than three intervals, and more than ninety seconds, ago |
| `Recording.SelectMeans` | api/internal/services/monitors/repository.go:727-804 | selecting locations keeps exactly the rows of those that stay, and starts a monitor without any afresh |
| `Recording.LoseMeans` | api/internal/services/locations/service.go:334-454 | losing a location drops it and its row only, and clamps the quorum to between one and what is left |
| `Recording.ReaggregateMeans` | scheduler/internal/scheduler/watchdog.go:243-299 | a re-aggregated enabled monitor shows what its poll shows, and its rows stay |
| `Recording.HorizonsMean` | shared/monitorstate/record.go:22-40 | the mark horizon is thirty days back rounded down to the hour, the prune cutoff an hour before it |
| `Protocol.KeepsLocks` | shared/monitorstate/record.go:86-118 | in every step, what a lock holder read is still current and no two transactions stage the same monitor |
| `RecordingSafety.KeepsInv` | shared/monitorstate/record.go:86-179 | every step of every writer, of the consumer and of retention keeps the protocol invariant |
| `RecordingSafety.TimelineSafety` | shared/monitorstate/intervals.go:40-80 | in every interleaving, at every moment, a monitor's intervals are a monotone gap-free chain, exactly the last row is open, and its state is current_state |
| `RecordingSafety.StateSafety` | shared/monitorstate/record.go:113-178 | in every interleaving state, failures and location rows are the fold of the accepted events in lock order; a location-less monitor is down exactly when its failures since the last restart were confirmed at some step; a monitor last moved by a poll shows that poll of the location rows, whose meaning QuorumSafety gives |
| `RecordingSafety.QuorumSafety` | scheduler/internal/ingest/quorum.go:21-145 | in every interleaving a monitor last moved by a poll is down exactly when as many voters as its quorum asks for, between one and all, had been heard within three intervals or ninety seconds and had confirmed failures by the evidence accepted there |
| `RecordingSafety.PollMeans` | shared/monitorstate/freshness.go:34-67 | what a poll shows, verdict by verdict, in terms of the rows its voters have |
| `RecordingSafety.PollIsCurrent` | scheduler/internal/ingest/quorum.go:21-145 | a poll asks exactly the selected live locations, with the monitor's quorum and interval, at the transaction's time |
| `RecordingSafety.RowIsFold` | scheduler/internal/ingest/quorum.go:21-145 | for every history a location has a row exactly when it accepted evidence since its row was last cleared, and the row is the fold of that evidence |
| `RecordingSafety.LocationSafety` | scheduler/internal/ingest/quorum.go:21-145 | in every interleaving a location row exists exactly when evidence was accepted there since its last clearing, its location is selected, its state is down exactly when those failures were confirmed at some step, it is never degraded or unknown, and its evidence times never step back |
| `RecordingSafety.LocationWatermarkMonotone` | scheduler/internal/ingest/quorum.go:21-145 | while a location keeps its row its watermark never goes back between any two moments of a run |
| `RecordingSafety.RecordedStaleNeverRaises` | shared/monitorstate/freshness.go:34-67 | for the rows any run wrote, polling later without new evidence never raises the severity |
| `RecordingSafety.MachineRunsOnce` | shared/monitorstate/record.go:120-137 | under any redelivery and reordering a retained key has moved at most one monitor at most once |
| `RecordingSafety.WatermarkMonotone` | shared/monitorstate/record.go:137-178 | the evidence watermark never goes back between any two moments of a run |
| `RecordingSafety.RedeliveryRunsAgain` | shared/monitorstate/record.go:113-150 | exactly when a redelivered result without a location moves its monitor a second time |
| `RecordingSafety.RedeliveryRunsAgainAtLocation` | scheduler/internal/ingest/quorum.go:21-145 | exactly when a redelivered result at a location moves its row and monitor a second time; without a clearing since, exactly when it is still the location's newest evidence |
| `RedeliveryRun.PrunedKeyRunsTwice` | shared/monitorstate/record.go:113-150 | a run in which one key moves its monitor, is pruned, is redelivered and moves it again |
| `RedeliveryRun.PrunedKeyRunsTwiceAtLocation` | scheduler/internal/ingest/quorum.go:21-145 | the same at a location, while the monitor has it selected |
| `RedeliveryRun.ClearedLocationForgets` | scheduler/internal/ingest/quorum.go:21-145 | a run in which a location, dropped and selected again, accepts a result once more that is older than another it had accepted |
| `RecordingSafety.NoVoters` | scheduler/internal/scheduler/watchdog.go:243-299 | a poll in which no location votes yields unknown with no failures, whatever rows there are |
| `LocationParity.SingleLocationParity` | docs/state-semantics.md:141 | after every run of results, redelivered or out of order, a monitor with one live location shows the state, failures, intervals and last result time of one without locations, whatever its quorum |
| `LocationParity.ParityExactly` | docs/state-semantics.md:141 | with the watchdog, pauses and resumes in the run, the two look the same throughout if and only if no turn delivers a failure to a location silenced while failing, or evidence that only the location still accepts and that changes what is shown |
| `LocationParity.TurnKeepsKin` | scheduler/internal/scheduler/watchdog.go:155-299 | one turn of both: they look the same after it exactly unless it is such a turn, and then stay tied |
| `LocationParity.SilenceBreaksParity` | scheduler/internal/scheduler/watchdog.go:155-299 | a failure, a silence and a failure: suspect without a location, down with one |
| `LocationParity.ResumeBreaksParity` | api/internal/services/monitors/repository.go:811-865 | a success, a pause, a resume and an older success: unknown without a location, up with one |
| `LocationParity.FreshKin` | docs/state-semantics.md:141 | a monitor that has heard nothing starts such a pair |
| `LedgerSafety.MarkableAndPrunable` | shared/monitorstate/record.go:22-40 | an hour can be both markable by a transaction and prunable exactly when the horizon has moved two whole hours since it began |
| `LedgerSafety.KeepsLedger` | scheduler/internal/scheduler/rollups_dirty.go:36-218 | every step keeps the ledger invariant: marks newer than the loaded batch survive, rebuilt buckets are complete unless re-marked, no dirty hour has lost rows |
| `LedgerSafety.NothingIsLost` | shared/monitorstate/record.go:225-250 | in every run a committed monitor-source row whose hour was at or after the mark horizon is counted in its hour's rollup or its hour is still dirty |
| `LedgerSafety.RebuildsNeverShrink` | scheduler/internal/scheduler/rollups_dirty.go:83-218 | no published rebuild replaces an hour that has lost rows or drops a row the rollup already counted |
| `LedgerSafety.CleanHourIsExact` | scheduler/internal/scheduler/retention.go:18-27 | in every run an hour at or after the mark horizon that is not dirty is rolled up exactly, row for row |
| `LedgerSafety.MarkedRowsAreCounted` | scheduler/internal/scheduler/rollups_dirty.go:83-218 | an hour that is neither dirty, cut by retention nor expired counts exactly its rows when they were all marked |
| `LedgerSafety.KeepsRecent` | shared/monitorstate/record.go:225-250 | every step keeps: a retained monitor-source row was marked or its hour lies before the mark horizon |
| `Multirange.RangeAggOk` | shared/analytics/timeline.go:225-247 | range_agg of any ranges is normalised and covers exactly the ticks of some range |
| `Multirange.IntersectOk` | shared/analytics/timeline.go:248-259 | multirange intersection is normalised and its ticks are the intersection of the ticks |
| `Multirange.SubtractOk` | shared/analytics/timeline.go:248-268 | multirange difference is normalised and its ticks are the difference of the ticks |
| `Multirange.UnionAllOk` | shared/analytics/timeline.go:260-272 | the union over a scope is normalised and covers exactly the ticks of some member |
| `Multirange.LengthIsTicks` | shared/analytics/timeline.go:135-140 | the summed length of a normalised multirange is its number of ticks |
| `Multirange.NormalUnique` | shared/analytics/timeline.go:225-287 | a normalised multirange is determined by its ticks |
| `Timeline.SplitIsPointwise` | shared/analytics/timeline.go:208-259 | each of the five classes of the query holds exactly the ticks that the pointwise classification puts in it |
| `Timeline.IntegrationIsPointwise` | shared/analytics/timeline.go:199-318 | a monitor's seconds in a bucket are the tally of the pointwise classification of its ticks |
| `Timeline.IntegrationIsComplete` | shared/analytics/timeline.go:7-23 | available, unplanned, planned, paused, unknown and untracked time add up to exactly the window |
| `Timeline.IntegrationIsAdditive` | shared/analytics/timeline.go:7-23 | integrating two adjacent buckets sums to integrating their union |
| `Timeline.DownIsPointwise` | shared/analytics/timeline.go:354-410 | the down ranges behind the outage list hold exactly the ticks classified planned or unplanned down |
| `Timeline.PlannedIsMaintenance` | shared/maintenance/predicate.go:18-30 | a tick is planned down exactly when it is down and the maintenance predicate holds at it |
| `TimelineHistory.TimelineIsHistory` | shared/monitorstate/intervals.go:40-80 | in every interleaving a monitor's intervals are, one by one, the states its accepted history went through and what moved it each time |
| `TimelineMeaning.TickMeans` | shared/analytics/timeline.go:208-259 | a tick counts as down exactly when the row holding at it is down, or degraded with the option on; available when up, suspect or otherwise degraded; paused when unknown by a pause, else unknown; planned exactly under a window of the tenant for the monitor or one of its groups |
| `TimelineMeaning.UntrackedMeans` | shared/analytics/timeline.go:60-80 | a tick is untracked exactly when no row of that tenant and monitor holds at it |
| `TimelineMeaning.KnobMovesDegraded` | shared/analytics/timeline.go:208-318 | counting degraded as down moves exactly the degraded time from available to down and nothing else |
| `TimelineMeaning.SuccessesHaveNoDownTime` | shared/analytics/timeline.go:142-318 | after any run in which a monitor accepted nothing but successes it has no down and no paused time in any window |
| `TimelineScope.SerialIsPointwise` | shared/analytics/timeline.go:260-287 | the serial composite is down iff some member is in unplanned down, available iff all are available, excluded otherwise, and the three parts sum to the window |
| `TimelineScope.SerialDownAtLeast` | shared/analytics/timeline.go:260-287 | serial down time is at least each member's unplanned down time |
| `TimelineScope.SerialDownAtMost` | shared/analytics/timeline.go:260-287 | serial down time is at most the sum of the members' unplanned down times |
| `TimelineScope.ScopeSerialIsPointwise` | shared/analytics/timeline.go:260-318 | the same three facts for the scope as the query computes it from the tables |
| `TimelineScope.OutagesAgree` | shared/analytics/timeline.go:354-434 | a monitor's outage lengths sum to planned plus unplanned down, and its planned shares to planned down, at the same clock |
| `TimelineMeaning.OutagesMean` | shared/analytics/timeline.go:354-434 | a monitor's outages are exactly the maximal stretches of down time in the window, each with its maintenance share; it started before when clipped at the start, and is ongoing when clipped at the end or reaching within a second of now in an open down row |
| `TimelineScope.CompositeAgrees` | shared/analytics/timeline.go:354-434 | the composite spans of the outage query are the serial down ranges of the integration query |
| `TimelineRead.ChainUntracked` | shared/analytics/timeline.go:60-80 | on a chain the untracked ticks are exactly those before its start and those it has not reached |
| `TimelineRead.RecordedTimelineIntegrates` | shared/analytics/timeline.go:142-318 | after any run of the recording protocol, integrating the timeline it wrote is pointwise, complete, and leaves untracked exactly the time outside the monitor's recorded life |
| `TimelineRead.CoveredWindowHasTime` | shared/analytics/timeline.go:60-100 | a window that the timeline reaches and that has begun always has observed or excluded time |
| `TimelineRead.DedupeIds` | shared/analytics/types.go:230-245 | every non-nil id and nothing else, each once, in the order of first occurrence |
| `TimelineRead.IntegrateTimeline` | shared/analytics/timeline.go:142-318 | an error exactly for a non-empty scope with an empty bucket; otherwise every requested monitor has one entry per bucket holding that bucket's figures, the serial row of each bucket is the composite, and each monitor with a timeline has its earliest start |
| `TimelineRead.CompositeOutagesAgree` | shared/analytics/timeline.go:411-434 | the composite outage rows' lengths sum to serial down |
| `TimelineRead.Outages` | shared/analytics/timeline.go:354-434 | exactly the monitors' outages and, for a scope, the composite ones, each as often as it occurs, by start and with the composite first among equals |
| `RollupCursor.RegionsTile` | shared/analytics/rollup_cursor.go:91-114 | for every cursor, unset, lagging or ahead, leading raw, rollup and trailing raw regions are disjoint and cover exactly the window |
| `RollupCursor.RollingIsOk` | api/internal/services/dashboard/hourly_rollup.go:68-74 | the rolling day always has hour-aligned edges with the leading one not after the trailing one |
| `RollupCursor.RollupHoursMean` | shared/analytics/rollup_cursor.go:91-114 | an hour is read from the rollup exactly when it is a whole hour of the window and the cursor has passed its end |
| `RollupCursor.FastNeverOvercounts` | api/internal/services/dashboard/hourly_rollup.go:38-170 | the combined count never exceeds the plain raw count, and equals it exactly when every hour read from the rollup is complete |
| `RollupCursor.RollingDayIsExact` | shared/analytics/rollup_cursor.go:35-39 | in every run of the recording protocol the rolling day is never over-counted, is the plain count exactly when every hour of the rollup region is complete, and so whenever no hour of that region is dirty |
| `RollupCursor.RawStartDropsNothing` | shared/analytics/rollup_cursor.go:116-125 | starting the raw scan there keeps every row past the cursor tuple |
| `RollupCursor.PastMeans` | shared/analytics/rollup_cursor.go:41-49 | a row is behind the cursor when it is older, or as old with an id no greater |
| `RollupCursor.SeriesError` | shared/analytics/rollup_cursor.go:41-49 | the error of an hourly bar is exactly what is counted twice less what is missed |
| `RollupCursor.SeriesIsExact` | api/internal/services/dashboard/hourly_rollup.go:262-345 | under the cursor contract every hourly bar is the plain count |
| `RollupCursor.AdvanceCovers` | scheduler/internal/scheduler/rollups_dirty.go:214-258 | after the cursor moves to the newest row no row is past it, and a cursor already further stays |
| `RollupCursor.CleanBarError` | shared/analytics/rollup_cursor.go:35-52 | in every run a clean bar misses nothing and is too high by exactly the hour's rows past the cursor |
| `OverCountRun.PublishedBarOverCounts` | shared/analytics/rollup_cursor.go:35-52 | a run after which a clean bar shows two checks where there is one |
| `RollupCursor.AdvancedBarIsExact` | scheduler/internal/scheduler/rollups_dirty.go:214-258 | once the cursor has advanced over a database every clean bar read from it is the plain count |
| `Downtime.MergeDowntimePeriods` | shared/analytics/repository.go:881-904 | for any periods, also ones that end before they begin, separated spans that cover exactly the same instants; for periods that run forwards, each span open exactly when a member that begins in it is open |
| `Downtime.MergeIsCanonical` | shared/analytics/repository.go:881-904 | the merge is determined by which periods there are: order and repetition do not matter |
| `Downtime.SpansAreUnique` | shared/analytics/repository.go:881-904 | separated spans are determined by the instants they cover |
| `ScopeDowntime.LoadRollupDowntime` | shared/analytics/repository.go:811-869 | merges exactly the clamped periods of the scope's monitors that meet the window |
| `ScopeDowntime.LoadClosedByMonitor` | shared/analytics/repository.go:292-320 | the closed periods of the union over the widest window, per monitor and in query order |
| `ScopeDowntime.LoadOpenByMonitor` | shared/analytics/repository.go:322-348 | the open periods of the union, per monitor |
| `ScopeDowntime.BuildScopeDowntime` | shared/analytics/repository.go:352-376 | from the batch load over the widest window, merges exactly the same set of periods |
| `ScopeDowntime.DowntimeMeans` | shared/analytics/repository.go:811-880 | an instant of the window is down exactly when a closed or open row of one of the scope's monitors covers it, nothing outside is, and a span is open exactly when an open row begins in it |
| `ScopeDowntime.BatchEqualsScope` | shared/analytics/repository.go:184-250 | batched or alone, with ids in any order and any number of times, a scope shows the same downtime |
| `RawSeries.ResolvedWindows` | shared/analytics/types.go:99-133 | every range's buckets reach its end, exactly for the short ranges |
| `RawSeries.WindowsMean` | shared/analytics/types.go:99-133 | the span, bucket and number of points of every range; the long ones start at a midnight and end today |
| `RawSeries.BucketStarts` | shared/analytics/types.go:135-150 | the displayed bucket starts, as many as displayed, one bucket apart |
| `RawSeries.BucketIsIndexed` | shared/analytics/repository.go:571-579 | a row's bucket is the k-th one exactly when its distance from the start, floored at zero, is k buckets |
| `RawSeries.IndexMeans` | shared/analytics/repository.go:571-579 | a row falls into the bucket that holds its time, an earlier one into the first |
| `RawSeries.AccMeans` | shared/analytics/repository.go:588-600 | an accumulator says how many rows its monitor had in the bucket, how many succeeded, the sum and number of successful latencies, and how and when the last one went |
| `RawSeries.RawResultBuilder.Consume` | shared/analytics/repository.go:512-529 | after each row every per-bucket per-monitor accumulator, the latest status and its check time included, is that of the rows consumed so far |
| `RawSeries.RawResultBuilder.SeriesTotals` | shared/analytics/repository.go:603-632 | each displayed total is the number of consumed rows of that bucket |
| `RawSeries.BucketTotal` | shared/analytics/repository.go:606-624 | adding up a bucket's monitors in whatever order the map is walked counts its rows |
| `RawSeries.SeriesConservesRows` | shared/analytics/repository.go:603-632 | a short-range series sums to the consumed rows strictly before the window's end |
| `RollupBatch.FillDays` | shared/analytics/repository.go:703-733 | each day and monitor holds the last row under that key |
| `RollupBatch.SeriesAgree` | shared/analytics/repository.go:229-247 | every point of the daily series sees the same rows, batched or alone |
| `RollupBatch.BatchSums` | shared/analytics/repository.go:229-247 | an id listed n times contributes each of its sums n times |
| `RollupBatch.RatesAgree` | shared/analytics/repository.go:780-797 | every monitor's sampled rate and mean latency are the same, batched or alone |
| `RollupBatch.RateMeans` | shared/analytics/repository.go:766-797 | every check weighs the same: the rate times the checks of the rows is the passed checks, and there is none without checks |
| `RollupBatch.LatencyMeans` | shared/analytics/repository.go:766-797 | the mean latency times the timed checks is the time taken |
| `RollupBatch.LatestTimeAgrees` | shared/analytics/repository.go:718-725 | the newest check time does not depend on row order |
| `RollupBatch.LatestStatusAgrees` | shared/analytics/repository.go:718-725 | every list of the same rows, in any order and with any repetition, gives the same latest status exactly when the rows at the greatest check time agree on one |
| `RollupBatch.BatchLatestAgrees` | shared/analytics/repository.go:184-250 | batched or alone a scope shows the same newest check time, and the same status where no tie at that time disagrees |
| `RollupBatch.TiedStatusDiffers` | shared/analytics/repository.go:718-725 | two monitors last checked at one instant with different statuses: the batch shows one, the single query the other |
| `InferenceQueue.GrantedIsHead` | ai-service/probara_ai/server.py:134-140 | the lock is granted only while free, and only to the first waiter |
| `InferenceQueue.RemoveKeepsQueue` | ai-service/probara_ai/server.py:134-140 | a waiter that leaves passes the wake-up on, so a free lock with waiters always has a head that will run |
| `InferenceQueue.SetCancelledMeans` | ai-service/probara_ai/server.py:134-140 | a cancellation reaches the one waiter still waiting under the id and nobody else |
| `InferenceQueue.RemoveMeans` | ai-service/probara_ai/server.py:134-140 | a waiter that leaves takes its first entry along and keeps the order of the rest |
| `InferenceQueue.KeepsInv` | ai-service/probara_ai/server.py:116-182 | every step of every task, of the worker thread and of shutdown keeps the queue invariant |
| `InferenceSafety.AdmissionBound` | ai-service/probara_ai/server.py:129-132 | in every schedule admitted equals the live admitted requests and never exceeds capacity + 1 |
| `InferenceSafety.SlotIsExclusive` | ai-service/probara_ai/server.py:147-167 | while a batch occupies the executor its own request is the only lock holder |
| `InferenceSafety.ClockChanges` | ai-service/probara_ai/server.py:148-175 | the in-flight clock is started only by the lock holder and stopped only once that holder's future is done |
| `InferenceSafety.Quiescence` | ai-service/probara_ai/server.py:179-182 | with no live request admitted is 0, the lock is free, nobody waits, the executor is idle, and the clock runs only after a refused submission |
| `InferenceSafety.RepliesAreCounted` | ai-service/probara_ai/server.py:129-178 | in every schedule each counter equals the number of requests that ended that way |
| `InferenceSafety.RepliesAreEarned` | ai-service/probara_ai/server.py:152-178 | in every schedule a request is answered only if its own thread ended with a result and failed only if it ended without; a request whose thread ended and that was not cancelled meanwhile ends with just that, a cancelled one so or aborted |
| `InferenceSafety.AlarmIsReal` | ai-service/probara_ai/server.py:83-88 | when the alarm sounds a batch occupies the executor, exactly unless a submission of the run was refused |
| `InferenceSafety.WedgedMeans` | ai-service/probara_ai/server.py:83-88 | the alarm sounds once the clock is more than the limit past the moment it was started |
| `InferenceSafety.FalseAlarm` | ai-service/probara_ai/server.py:148-149 | a schedule after which nothing is live or running and the alarm sounds |
| `InferenceSafety.NeverStuck` | ai-service/probara_ai/server.py:116-182 | a live request means some step of the service itself can run: no lost wake-up, no deadlock |
| `InferenceSafety.Drains` | ai-service/probara_ai/server.py:116-182 | left to itself the service takes a bounded number of steps and ends with every request answered and the slot free |
| `InferenceServer.DecideServer.Arrive` | ai-service/probara_ai/server.py:117-136 | admission stays the number of live requests within capacity + 1, a call beyond the capacity is turned away, and a call that goes straight to its check found the lock free and is its only holder |
| `InferenceServer.DecideServer.LeaveWait` | ai-service/probara_ai/server.py:134-140 | the lock goes to one request while it is free, which is then its only holder; giving up returns the admission and leaves the lock as it was |
| `InferenceServer.DecideServer.Submit` | ai-service/probara_ai/server.py:141-154 | the request is the only lock holder and the executor is idle; only it starts the in-flight clock, for its own batch or for a refused one |
| `InferenceServer.DecideServer.LeaveAwait` | ai-service/probara_ai/server.py:152-182 | the request ends exactly when its future is done, and only then are slot, clock and admission given back; an uncancelled one is answered after a success and failed after a failure, each counted once, and every other one aborted and not counted |
| `InferenceServer.DecideServer.Enter` | ai-service/probara_ai/server.py:117-136 | the code from the call to the first await is the arrival step |
| `InferenceServer.DecideServer.EndWait` | ai-service/probara_ai/server.py:134-140 | the code at the end of the lock wait is the queue step |
| `InferenceServer.DecideServer.EndCheck` | ai-service/probara_ai/server.py:141-154 | the code from the disconnect check to the shielded await is the submission step |
| `InferenceServer.DecideServer.EndAwait` | ai-service/probara_ai/server.py:152-182 | the code at the end of an await on the shielded future is the await step |
| `Dependencies.AddEdgeAcyclic` | shared/ai/dependencies.go:249-269 | an acyclic graph with one more edge stays acyclic exactly when the upstream does not reach the monitor |
| `Dependencies.PathWithEdge` | shared/ai/dependencies.go:249-269 | a path after adding an edge avoids it, or runs to its start and on from its end |
| `Dependencies.BuildGraph` | shared/ai/dependencies.go:250-253 | the adjacency map lists each monitor's upstreams in edge order |
| `Dependencies.WouldCycle` | shared/ai/dependencies.go:249-269 | terminates and answers whether the monitor is reachable from the upstream |
| `Candidates.SignalsAreSymmetric` | shared/ai/dependencies.go:86-121 | the corroborating signals do not depend on which monitor is named first |
| `Candidates.CandidatesMean` | shared/ai/dependencies.go:157-216 | a pair is a candidate exactly when it fired together or shares a tag, a group or a token, and each flag of its evidence is true exactly when that holds |
| `Candidates.TimingIs` | shared/ai/dependencies.go:169-192 | the first co-firing row of a pair gives its count, lead and reverse count, the lead counted from the smaller ref; later rows add to the reverse count |
| `Candidates.NamingMeans` | shared/ai/dependencies.go:101-121 | two names hint at each other exactly when, in small letters, they share a maximal stretch without separators of three letters or more that is no common word |
| `Candidates.FieldsAreRuns` | shared/ai/dependencies.go:101-103 | the tokens of a name are its maximal stretches between separators |
| `Candidates.LowerMeans` | shared/ai/dependencies.go:86-103 | lower-casing changes the capital letters, each to its own small letter, and nothing else |
| `Candidates.BeforeMeans` | shared/ai/dependencies.go:221-246 | a pair ranked ahead has more co-firings or, in turn and all else equal, a shared service, a shared group, a naming hint, or the smaller refs |
| `Candidates.BeforeIsStrict` | shared/ai/dependencies.go:221-246 | the ranking is strict and total on distinct pairs |
| `Candidates.BeforeIsTransitive` | shared/ai/dependencies.go:221-246 | the ranking is transitive |
| `Candidates.RankedIsUnique` | shared/ai/dependencies.go:217-248 | a ranked list is determined by what it holds |
| `Candidates.OrderDoesNotMatter` | shared/ai/dependencies.go:157-248 | the candidate list depends on monitors and existing edges only as sets |
| `Candidates.PairsAppearOnce` | shared/ai/dependencies.go:157-248 | with distinct refs each pair is listed once, smaller ref first |
| `Advisor.TimingPairs` | shared/ai/dependencies.go:169-192 | the pair map holds exactly the pairs with an accepted co-firing row, each with the fold of its own rows |
| `Advisor.CorroboratedPairs` | shared/ai/dependencies.go:200-216 | with distinct refs the map then holds exactly the relevant pairs with their full evidence |
| `Advisor.Collect` | shared/ai/dependencies.go:217-247 | whatever order the map is walked in, the result is the ranked list of its entries |
| `Advisor.AllCandidatePairs` | shared/ai/dependencies.go:157-248 | with distinct refs the result is the ranked list of exactly the candidates |
| `Advisor.CandidatePairs` | shared/ai/dependencies.go:126-134 | at most fifty, best first; none is dropped unless fifty are kept, and no dropped candidate has more co-firings than a kept one nor, all else equal, a shared service, group or naming hint that it lacks |
| `Advisor.PairDecisionFor` | shared/ai/dependencies.go:136-152 | the same evidence for every candidate pair, whichever way round it is named, and nothing for the others |
| `Advisor.SuggestDependencies` | shared/ai/dependencies.go:284-321 | for every model answer the graph with the suggestions stays acyclic and gains no duplicate; each suggestion answers a qualified pair with the monitor and the upstream that the answer names, and every qualified one left out would close a cycle |
| `Advisor.UpstreamCameFirst` | shared/ai/dependencies.go:288-300 | the upstream of a suggestion is the monitor whose alerts came first in the pair's first co-firing row, by the sign of its median lead; that row has two or more and the other order none |
| `Decisions.TotalIsOrderFree` | shared/ai/provider.go:245-251 | the probability sum does not depend on the order the map is walked in |
| `Decisions.CheckProbabilities` | shared/ai/provider.go:242-255 | accepts exactly a distribution over exactly the choices |
| `Decisions.IdentityMeans` | shared/ai/provider.go:225-229 | the engine, a version, a checksum of 64 hexadecimal digits and the catalogue |
| `Decisions.CheckResults` | shared/ai/provider.go:236-256 | accepts exactly results with distinct ids that each answer one of the decisions |
| `Decisions.Answered` | shared/ai/provider.go:226-241 | as many distinct answers as questions, each to a question: every question is answered |
| `Decisions.Decide` | shared/ai/provider.go:215-266 | accepts exactly a valid reply to a batch of 1 to 50 and then puts it in request order in place, losing nothing; a rejected reply is left as it came |
| `Decisions.AlignmentIsUnique` | shared/ai/provider.go:257-264 | whatever order the service answers in, the aligned results are the same |
| `BestChoice.Best` | shared/ai/catalogue.go:141-150 | the result of some walk of the map and, without a tie at the empty key, the least of the most probable keys |
| `BestChoice.BestIsWellDefined` | shared/ai/catalogue.go:141-150 | every walk finds the least of the most probable keys, unless the empty key ties at the top |
| `BestChoice.OrderIndependence` | shared/ai/catalogue.go:141-150 | all walks agree exactly when the empty key does not tie at the top |
| `Text.LessIs` | shared/ai/catalogue.go:141-150 | strings are ordered by their first differing character, a prefix first |
| `EvidenceRules.SummarizeChecks` | shared/ai/evidence.go:61-144 | each counter is the number of checks of its kind, each peak the greatest reading, the baseline the upper median of the successful latencies; expired means some certificate had expired, changed means some two serials differ, conflict more than one failure domain |
| `EvidenceRules.SummaryMeans` | shared/ai/evidence.go:61-144 | each counter is the number of checks that failed, failed in that domain, or took three times the baseline and half a second; conflict means two domains with a failed check |
| `EvidenceRules.BaselineMeans` | shared/ai/evidence.go:64-74 | the baseline is the latency of a successful check that at most half of them undercut and fewer than half exceed |
| `EvidenceRules.OtherSupport` | shared/ai/evidence.go:146-171 | when latency, resources, an upstream or maintenance are borne out: no missing or conflicting evidence and the measurement itself beside a failure |
| `EvidenceRules.SortedIntsOk` | shared/ai/evidence.go:71-74 | the latencies are sorted and the same latencies |
| `EvidenceRules.SupportIsExclusive` | shared/ai/evidence.go:146-171 | a DNS, connection or protocol cause is supported exactly when some check failed in its domain and none in another |
| `EvidenceRules.TlsSupport` | shared/ai/evidence.go:146-156 | a TLS problem is supported exactly when no two domains failed and some check failed in TLS, or some failed and some certificate had expired |
| `EvidenceRules.SerialNext` | shared/ai/evidence.go:119-131 | comparing each serial with the last one met finds any two serials of the window that differ |
| `EvidenceRules.SupportNeedsObservation` | shared/ai/evidence.go:146-171 | whatever the flags say, a named cause rests on a failed check, or on a slow one for latency |
| `Analyzer.Gather` | shared/ai/analyzer.go:18-42 | the affected monitors in order, each with its own or its recomputed summary |
| `Analyzer.DecideAll` | shared/ai/analyzer.go:48-62 | succeeds exactly when every chunk of fifty is answered validly by one model with one threshold; then the i-th result comes from the i-th decision's own call and answers it with exactly its choices |
| `Analyzer.Judge` | shared/ai/analyzer.go:66-81 | each monitor's prediction is its best choice, and its verdict is that choice only when confident and supported |
| `Analyzer.FinalIsSupported` | shared/ai/analyzer.go:72-75 | no verdict goes beyond its own evidence |
| `Analyzer.NameCause` | shared/ai/analyzer.go:82-98 | a cause is named exactly when it is the sole supported one and covers at least half the monitors, with the mean of its votes' scores |
| `Analyzer.Analyze` | shared/ai/analyzer.go:11-119 | succeeds exactly when every chunk is answered validly; then one recorded decision per affected monitor, in order, with the probabilities of its own reply, and the cause they establish |
| `Analyzer.CauseScore` | shared/ai/analyzer.go:93-95 | the score of a named cause is never below the model's threshold |
| `Labels.CheckOverrides` | shared/ai/labels.go:91-103 | accepts exactly overrides of known decisions with one of their choices |
| `Labels.IncidentLabelMeans` | shared/ai/labels.go:58-90 | a confirmation stands for the analysis's own cause and no other, a correction for a cause that every decision could have named |
| `Labels.ResolveIncidentAnswers` | shared/ai/labels.go:58-126 | succeeds exactly when the snapshot, the label, the overrides and the evidence are usable, and then each id carries the answer of its last decision |
| `Labels.LabelsAreSupported` | shared/ai/labels.go:105-125 | from analysis to labels: an un-overridden decision's label is supported by its own evidence exactly when that evidence supports the answer of the last decision under its id |
| `Labels.DistinctLabelsAreSupported` | shared/ai/labels.go:105-125 | with distinct ids every answer is the operator's own or is supported by its decision's evidence |
| `Labels.OneCallHasDistinctIds` | shared/ai/analyzer.go:48-62 | the decisions of one call, up to fifty monitors, have distinct ids because the reply was valid |
| `SharedIds.SharedIdMislabels` | shared/ai/labels.go:105-125 | fifty-one monitors in two validly answered calls, the first id drawn again for the last decision: confirming the named cause stores it for a monitor whose evidence does not support it |
| `AlertRouting.RollupGroup` | shared/alertrouting/alertrouting.go:242-252 | NULL exactly when no group rolls the monitor up, otherwise the first in delivery order |
| `AlertRouting.FirstIsUnique` | shared/alertrouting/alertrouting.go:238-241 | the choice among roll-up groups is stable: there is one first group |
| `AlertRouting.TwinsAgree` | shared/alertrouting/alertrouting.go:335-351 | on every database state the SQL predicate is never NULL and selects exactly what the Go classification of the query's counts calls unreachable |
| `AlertRouting.AnyRollupGroupIsEnough` | shared/alertrouting/alertrouting.go:234-252 | a rolled-up monitor is reachable exactly when any of its roll-up groups would deliver |
| `AlertRouting.SuppressionIsMembership` | shared/alertrouting/alertrouting.go:254-265 | suppression by roll-up holds exactly when there is a roll-up group to choose |
| `AlertRouting.ReasonIsTrue` | shared/alertrouting/alertrouting.go:109-159 | each reason shown names a fact of the database and the routing mode it is about |
| `AlertRouting.SourceIsTrue` | shared/alertrouting/alertrouting.go:109-159 | the source, the group and the counts shown are those of the routing that applies |
| `AlertRouting.StatusMeans` | shared/alertrouting/alertrouting.go:109-159 | reachable exactly when the monitor is a group that leaves alerting to its members, some group that rolls it up is enabled and has an active channel, or none rolls it up and it has one itself |
| `AlertRouting.CountMeans` | shared/alertrouting/alertrouting.go:186-225 | the channel count is the number of existing, where asked active, channels assigned by the monitor's mode |
| `AlertRouting.PagesMean` | alerter/internal/alerter/lifecycle.go:77-97 | a monitor's own alert pages exactly when it is enabled, undeleted, not silent by itself, rolled up by no group, and has an active channel |
| `AlertRouting.CountMatchesTargets` | shared/alertrouting/alertrouting.go:186-225 | the channel count and the delivery routing agree on whether anyone is told |
| `AlertRouting.StatusIsDelivery` | alerter/internal/alerter/lifecycle.go:77-97 | the status shown is what the alerter delivers over all ancestor groups, exactly when a rolled-up monitor with a channel at its roll-up level has a group above it that speaks for itself, and one without such a channel has none |
| `AlertRouting.AncestorIsGroup` | alerter/internal/alerter/lifecycle.go:236-280 | every ancestor reached through enabled, undeleted members is an active group, and the monitor has a group directly above it |
| `AlertRouting.FlatGroupsAgree` | alerter/internal/alerter/lifecycle.go:236-280 | with groups one level deep the status is always what is delivered |
| `AlertRouting.NestedGroupsMislead` | api/internal/services/groups/service.go:28-71 | a channel on the inner of two nested groups only: shown as reachable and nobody is paged |
| `AlertRouting.OuterGroupStillPages` | alerter/internal/alerter/lifecycle.go:236-280 | a channel on the outer of two nested groups only: shown as unreachable and the outer group pages |
| `AlertRouting.NestedGroupsCanAgree` | alerter/internal/alerter/lifecycle.go:236-280 | a channel on both: shown as reachable and the outer group pages |
| `AlertRouting.SuppressionIsDecided` | shared/alertrouting/alertrouting.go:288-304 | dependency suppression is never NULL and holds exactly under the monitor's own setting, or its tenant's where it has none, for an alert with a root cause or within the grace period; without the COALESCE it would be NULL exactly for an unexplained alert under the policy |
| `AlertRouting.UnsuppressedIsEligible` | shared/alertrouting/alertrouting.go:306-315 | an unsuppressed triggered alert is eligible by now exactly unless the policy is off and the grace clock still runs |
| `AlertRouting.EligibleMeans` | shared/alertrouting/alertrouting.go:306-315 | an alert may go out once it has triggered and the grace period after its root cause cleared is over |
| `AlertRouting.PolicyOffStillDelays` | shared/alertrouting/alertrouting.go:306-315 | an unsuppressed alert held back with the policy off |
| `AlertRouting.ImpactedIsSuppressed` | shared/alertrouting/alertrouting.go:317-333 | a root cause's list is exactly its suppressed alerts |
| `AlertRouting.ImpactedMeans` | shared/alertrouting/alertrouting.go:317-333 | a cause's list holds the open availability alerts of existing monitors under the policy that name it |
| `Civil.GregorianOk` | shared/analytics/period.go:143-159 | Gregorian months follow one another, every day is in one, and years have 365 or 366 days |
| `Civil.MonthLengths` | shared/analytics/period.go:143-146 | every month has the length it has on the wall, leap years included |
| `Civil.Epoch` | shared/analytics/period.go:143-146 | 1 January 1970 is a Thursday and lies 719162 days after 1 January of year 1 |
| `IsoWeeks.WeeksAgree` | shared/analytics/period.go:153-159 | the Thursday rule of ISO 8601 and the 4 January rule of the code give the same weeks |
| `IsoWeeks.WeekIsItsOwn` | shared/analytics/period.go:80-83 | a week read back from its start has its own number exactly when its year has that week; only week 53 can be missing |
| `Periods.ContainingIs` | shared/analytics/period.go:44-56 | the period built for an instant is the one its local day falls in, also where a midnight is skipped; a week needs that 4 January is not skipped |
| `Periods.KeyIsRight` | shared/analytics/period.go:143-159 | a month carries its own key exactly when its first midnight lands, and otherwise the key of the month before; quarters and weeks always carry their own |
| `Periods.NextIs` | shared/analytics/period.go:115-118 | Next is the period of the instant at which this one ends, and the following one exactly under the stated condition on the boundary midnights, per kind |
| `Periods.PreviousIs` | shared/analytics/period.go:110-113 | Previous is the preceding period, exactly except for weeks whose 4 January midnight does not land and is no Monday |
| `Periods.NextThenPrevious` | shared/analytics/period.go:109-118 | one period forth and back returns wherever both steps are right |
| `Periods.PreviousThenNext` | shared/analytics/period.go:109-118 | one period back and forth returns wherever both steps are right |
| `Periods.PeriodsTile` | shared/analytics/period.go:44-56 | a period holds exactly the instants of its days if and only if the date never comes back over its boundaries and its start and end are the first instants of their days |
| `Periods.TilesByMidnights` | shared/analytics/period.go:143-159 | the same by midnights: its first midnight exists and both boundary midnights land, for a week also that of 4 January |
| `Periods.TilesContain` | shared/analytics/period.go:44-56 | each instant of a period that tiles is in the period built for that instant |
| `GapZones.SkippedMonthStart` | shared/analytics/period.go:143-146 | for every month, in a location that skips its first midnight: it carries the key of the month before, whose Next is itself |
| `GapZones.SkippedMidnightOverlaps` | shared/analytics/period.go:143-159 | for every period of every kind, in a location that skips its first midnight: it runs an hour into the next |
| `GapZones.SkippedDayIsHarmless` | shared/analytics/period.go:109-159 | in a location that skips a whole day, every period with other boundaries steps both ways and tiles as it should |
| `GapZones.RepeatedDayNeverTiles` | shared/analytics/period.go:143-159 | in a location whose clock goes back over a boundary midnight, neither the period before nor the one after is one span |
| `GapZones.GapOk` | shared/analytics/period.go:43-45 | a location with one hour skipped at one midnight, resolved either way, meets the hypotheses |
| `GapZones.GapFlows` | shared/analytics/period.go:43-45 | its local days follow one another, so it also meets what tiling asks |
| `GapZones.SkipRegular` | shared/analytics/period.go:43-45 | in a location that skips a whole day every other day has each of its times of day |
| `GapZones.BackRegular` | shared/analytics/period.go:43-45 | in a location whose clock goes back each time of day exists on every day |
| `GapZones.UtcOk` | shared/analytics/period.go:43-45 | a location without transitions meets the hypotheses and all its midnights land |
| `Periods.StepsInvert` | shared/analytics/period.go:109-118 | where all midnights land, Next and Previous are inverse from the period of any instant |
| `PeriodKeys.ParseInvertsKey` | shared/analytics/period.go:58-87 | parsing the key of the period of any instant gives that period back exactly under the stated condition on its boundary midnights, for the years 1970 to 9999, ISO week 53 included |
| `PeriodKeys.BuiltKeyParses` | shared/analytics/period.go:58-87 | the same for every period by number |
| `PeriodKeys.MonthRoundTrip` | shared/analytics/period.go:60-67 | a month key parses to its own month where its first midnight lands, and to the month before where it does not |
| `PeriodKeys.QuarterRoundTrip` | shared/analytics/period.go:68-73 | in every location a quarter key parses to its period exactly for the years 1970 to 9999 |
| `PeriodKeys.WeekRoundTrip` | shared/analytics/period.go:74-84 | a week key parses to its period exactly when its start reads back, for the ISO years 1970 to 9999 |
| `PeriodKeys.WeekAccepted` | shared/analytics/period.go:74-84 | a week key is accepted exactly when that ISO year has that week and its start reads back; only week 53 can be missing |
| `PeriodKeys.SplitPrinted` | shared/analytics/period.go:161-172 | a printed year and number split into the two again, exactly within the year bounds |
| `PeriodKeys.KeysRead` | shared/analytics/period.go:143-159 | a month reads 2024-03, a quarter 2024-Q1 and a week 2024-W05 |
| `PeriodKeys.TextsAccepted` | shared/analytics/period.go:59-87 | whatever the text, it is accepted only as a year from 1970 to 9999 with a month, quarter or week in range, split at the first separator |
| `PeriodKeys.FourDigitYear` | shared/analytics/period.go:143-146 | the year of a month key reads back, whatever its sign |
| `DayBuckets.DayBuckets` | shared/analytics/period.go:120-141 | where the visited midnights land the loop ends with linked non-empty buckets from its first midnight (or the start, if later) to the end; where the local date never goes back that is the whole span, one local day to a bucket |
| `DayBuckets.ExitsExactly` | shared/analytics/period.go:126-139 | the loop exits if and only if every midnight it visits before the end lands on its day |
| `DayBuckets.SkippedMidnightLoops` | shared/analytics/period.go:126-139 | in a location whose clock jumps an hour forward at a midnight and resolves it to the day before, the loop never exits on any span across it |
| `SeriesKeys.SeriesKeyString` | shared/metricstore/hash.go:49-71 | the key is the name and the attributes in sorted key order |
| `SeriesKeys.ParseSeriesKeyString` | shared/metricstore/hash.go:76-93 | the loop computes the parse used in the round trip |
| `SeriesKeys.RoundTripExactly` | shared/metricstore/hash.go:49-93 | parsing a printed key gives name and attributes back exactly under the stated condition on braces, commas and equals signs |
| `EvidenceText.GoStateText` | shared/ai/labelexport.go:131-172 | the Go loop renders the head and the shown fields in sorted order |
| `EvidenceText.PythonStateText` | ai-service/probara_ai/contract.py:47-65 | the Python loop renders the Python head and the truthy labelled fields in sorted order |
| `EvidenceText.RenderersAgree` | ai-service/probara_ai/contract.py:47-65 | for every accepted evidence the Go text of its canonical form is the Python text of the evidence itself, heads and labels of each written from its own source |
| `EvidenceText.DirectionsAgree` | ai-service/probara_ai/contract.py:54-56 | abs and truthiness of the lead give the sentence of the Go switch |
| `EvidenceText.HeadsAgree` | ai-service/probara_ai/contract.py:53-59 | the opening sentences agree in both tasks |
| `EvidenceText.TitlesAgree` | ai-service/probara_ai/contract.py:57-60 | the two label tables agree on every labelled field |
| `EvidenceText.FieldTablesAgree` | ai-service/probara_ai/contract.py:10-18 | the structs and the Python tables list the same fields and the same of them as flags |
| `EvidenceText.ValuesMean` | ai-service/probara_ai/contract.py:29-36 | a number is accepted within a hundred million, below zero only as the lead, and a flag only as a flag |
| `Decimal.SignedReads` | shared/ai/labelexport.go:131-172 | a printed number reads back |
| `EvidenceDecoding.PythonIsExactGo` | shared/ai/labelexport.go:44-110 | what Go accepts with every key in its exact spelling is what Python accepts with every member well typed, which follows where no key repeats; Go's canonical form is then the dict filled in with zeros |
| `EvidenceDecoding.GoIsPythonRespelled` | shared/ai/labelexport.go:44-110 | Go accepts an object exactly when it names the counts, every member decodes, and Python accepts it with each key respelled |
| `EvidenceDecoding.FoldMeans` | shared/ai/labelexport.go:71-75 | the decoder folds letters to small ones, the long s and the Kelvin sign to theirs, and the rest to itself |
| `EvidenceDecoding.ValidatorsAgree` | ai-service/probara_ai/contract.py:25-38 | the two validators agree on an object exactly unless some key is in another spelling and the object respelled is acceptable, or all keys are exact and only an overwritten value is mistyped |
| `EvidenceDecoding.CaseMatters` | shared/ai/labelexport.go:71-75 | an object with a capitalised key that Go accepts and Python rejects |
| `EvidenceDecoding.RepeatMatters` | ai-service/probara_ai/contract.py:25-38 | an object with a repeated key that Python accepts and Go rejects |
| `EvidenceInjective.CanonicalIs` | shared/ai/labelexport.go:79-105 | the canonical form of accepted evidence has every field, typed and within bounds |
| `EvidenceInjective.TextInjective` | shared/ai/labelexport.go:131-172 | different canonical evidence never reads the same, in either task |

## Left out

- Database drivers, HTTP and NATS clients, loggers, configuration, authentication, crypto and token handling: plumbing over libraries.
- Floating-point rounding: probabilities, rates and scores are reals; NaN and infinities, which `decide` rejects, do not occur in the model.
- JSON text: evidence objects arrive as typed members; nulls, trailing data and non-integer numbers are not modelled.
- Group monitors' derived state, per-tenant retention shorter than the global cap, history deletion on request and the purge of deleted monitors.
- The daily rollups' own rebuild and the downtime sync from intervals: they follow the hourly ones.
- RecordIntervalTx: tenants are not modelled on the recording side; a monitor id identifies its row.
- MachineRunsOnce: says "while the row is retained", because retention forgets the key; RedeliveryRunsAgain and RedeliveryRunsAgainAtLocation give the exact condition afterwards.
- AdvanceCovers: the cursor is moved by a function over one database, not by a step of the protocol, because nothing on the recording side reads or writes its table; that it is called only after the ledger drained is therefore not needed, and AdvancedBarIsExact asks only that the bar's hour is clean.
- ParityExactly: the watchdog's synthetic results are not part of a run, because only Record writes them; the location stays live and the check interval does not change.
- TilesByMidnights: where a skipped first midnight is carried over, it asks that the day the period ends on has that time of day and its own midnight; PeriodsTile asks neither.
- Lower-casing of names and tags covers ASCII letters only, and the length of a token counts characters.
- SummarizeChecks: a check arrives with its category, its decoded timings and whether its certificate had expired; the text matching of ErrorCategory and the decoding of metrics are not modelled.
- The wording of reasons, facts and summaries, and the format-2 evidence text.
- Maintenance gating, reminders, acknowledgements and escalation delays of the alerter, beyond the predicates listed.
- Percentiles, averages and labels of the analytics results: value functions over the sums proved here.
- CustomPeriod, and the width limit of strconv.Atoi, whose overflow ends in the same rejection.
- Metric range queries, latency anomaly statistics, SIP and media validators, training and release scripts, the web interface and demo seeding.
