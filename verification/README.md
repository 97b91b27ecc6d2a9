# money-miner: a verified model

This project models the swarm control plane of money-miner and the self-contained algorithms around it, and
proves what they promise over all inputs and all runs.

- **Swarm** (`Swarm*.dfy`). The state is the store's tables (miners, workers, swarm jobs, runs, samples), the hub's
  maps (`conns`, `live`, `jobs`) and, per websocket connection, a FIFO queue each way and the worker's running engines.
  `SwarmModel` gives the SQL statements, the hub's critical sections, the handlers and a transition relation over
  sixteen events (create, enroll, start, stop, delete, allocation, revoke, delete worker, connect, one message read by
  either side, a metrics report, either end going away, a broken connection, time passing). `SwarmInvariant`,
  `SwarmSteps` and `SwarmRuns` prove one inductive invariant over every run. `SwarmTheorems`, `SwarmShares`,
  `SwarmAgreement`, `SwarmOverlap` and `SwarmDelivery` draw the consequences; `SwarmTwoJobs` is a run that one of them
  needs. `SwarmEffects` says what each event does to the rows, the maps and the queues, and that it does nothing else;
  `SwarmForGood` says what a revocation or a deletion means for the rest of every run. `SwarmServer` is the same server
  as a class whose methods update its fields in place, each tied to the transition relation. `SwarmSections` runs the
  server one critical section and one SQL statement at a time, under every interleaving of its handlers, `SwarmLate` says
  what an acknowledgement written late can do there, and `SwarmSerial` that every run of whole handlers is one of these
  interleavings.
- **Share accounting** (`Shares`, `Rollup`): cumulative counters to deltas, deltas to totals, samples to hourly rows.
- **Join codes** (`JoinCode`, `Enrollment`): the packing loop, the normaliser, and enrolment that picks first and
  commits later.
- **Streams and templates** (`Sse`, `Template`, `LogTail`): the event stream of sections 9.2.5 and 9.2.6 of the WHATWG
  HTML Living Standard across the Go printer and the TypeScript parser, argument rendering in Go's map order, and line
  tailing over arbitrary reads.
- **Concurrent structures** (`Broker`, `Stratum`) and the payout ledger (`Payouts`).

A handler is one atomic step in `SwarmModel`; a critical section or a statement is one in `SwarmSections`. Fields marked
as history (`homes`, a sample's `job`, `all` and `passes` in `Rollup`) exist only to state properties.

Where the code and its documentation disagree, the model follows the code:

- `docs/swarm.md` line 26 says a join code is never reusable. Deleting the worker it enrolled clears `consumed_by`
  (migration V4), and the code redeems again until it expires: `Enrollment.ReusableAfterDeletionIff`,
  `Enrollment.CodeRedeemedTwice`. Without a deletion it is single-use: `Enrollment.SingleUseWithoutDeletion`.
- `docs/architecture.md` line 60 says rollups live forever. A row does, but a delete cutoff inside a bucket that is then
  aggregated again overwrites it with what is left. `Rollup.RowLosesASample` is a run in which that happens;
  `Rollup.KeptForeverIff` says in which runs a row stays what it was, `Rollup.SplitBucketIff` which upsert breaks it, and
  `Rollup.SplitBucketLosesShares` what is lost. Deletes on the hour break nothing: `Rollup.AlignedRollupsAreForever`.
- `unregister` is keyed by the worker, not by the connection, so a reconnection that overlaps its predecessor can lose
  its registration and with it every later cancel: `SwarmOverlap.OverlapStrandsAnEngine`. In every reachable state a stop
  reaches an engine exactly when its session is the registered one (`SwarmOverlap.StopReachesIffRegistered`), and every
  served session stays registered exactly in the runs without such an overlap (`SwarmOverlap.RegisteredIffOrderly`).
- `CancelMiner` closes a miner's runs with the totals of the first job it visits; `SwarmTheorems.FinalisationConserves`
  says exactly when that is all of them, and `SwarmTwoJobs.RunClosedShort` is a run in which it is not.
- An acknowledgement tests that its job is open when it looks the job up, not when it writes. Between two statements a
  whole stop fits: the ended job then reads as acknowledged, though `ended_at` stays, and the stopped miner as running.
  `SwarmLate.LateAcknowledgement` is such a run; `SwarmLate.EndedStatusIff` and `SwarmLate.RevivedIff` say exactly when
  either happens.

## Model

| member | source | states |
|---|---|---|
| `SwarmRuns.RunKeepsInv` | money-miner-backend/internal/swarm/hub.go:189-529 | the inductive invariant after every run: table integrity and placement, hub maps in step with each other, message order per job, hub totals of open jobs equal to their stored samples, and an open job's miner queued, running or in error |
| `SwarmRuns.StepKeepsInv` | money-miner-backend/internal/api/handlers.go:298-379 | every handler, every message handled at either end and every connection event keeps that invariant |
| `SwarmTheorems.TerminalStates` | money-miner-backend/internal/store/store.go:816-942 | across any run an ended job's row and a revoked worker's row never change again while they exist, revoked is the status exactly when revoked_at is set, and every job pairs a miner with a non-browser worker of the same owner |
| `SwarmTheorems.NoRevival` | money-miner-backend/internal/api/handlers.go:348-360 | after Stop and until the next Start of that miner, in every run, it is stopped (or deleted) and no sample of it is added, whatever was in flight |
| `SwarmTheorems.OpenJobsAreActive` | money-miner-backend/internal/swarm/hub.go:292-315 | in every reachable state an open job's miner exists and is queued, running or in error |
| `SwarmTheorems.CancelLeavesNothingOpen` | money-miner-backend/internal/swarm/hub.go:472-500 | after CancelMiner in any reachable state no open job of the miner is left, and an open run is left iff there was one and no job was open |
| `SwarmTheorems.FinalisationConserves` | money-miner-backend/internal/store/store.go:422-428 | open runs close with at most the shares stored as samples of the miner's open jobs, with all of them iff the jobs after the first have none, and exactly the sample sums when there is one job |
| `SwarmTwoJobs.RunClosedShort` | money-miner-backend/internal/store/store.go:422-428 | a concrete run in which a miner with two open jobs is stopped and its run closes with fewer shares than were stored for them |
| `SwarmEffects.StartTakesEffect` | money-miner-backend/internal/api/handlers.go:308-346 | a start that is let through (the owner's own miner, neither running nor queued, with a wallet or simulated) queues the miner with one new open run and then gives one new job to a least loaded connected native worker of the owner: open with its assignment last in the queue when that went out, in error otherwise, none when there is no such worker or its row is gone; any other start changes nothing |
| `SwarmEffects.AckTakesEffect` | money-miner-backend/internal/swarm/hub.go:292-315 | an acknowledgement of the worker's own open job writes that job, its miner, that worker and the hub's entry at zero totals, a refusal ends the job and marks the miner, nothing else changes, and a report about any other job changes nothing |
| `SwarmEffects.MetricsTakeEffect` | money-miner-backend/internal/swarm/hub.go:319-352 | a report of the worker's own open job adds one sample with the growth of both counters, zero when the hub knew nothing of the job, the hub's totals take it in, and nothing else changes |
| `SwarmEffects.ReadTakesEffect` | money-miner-backend/internal/swarm/hub.go:237-290 | the server takes one message off the session's queue and handles it for that session's worker |
| `SwarmEffects.StopTakesEffect` | money-miner-backend/internal/api/handlers.go:348-360 | the owner's stop marks the miner stopped, ends exactly its open jobs, closes its open runs if there was such a job, makes the hub forget just these jobs and queues one cancel for each of them to its worker's registered connection if that is up; a stranger's stop changes nothing |
| `SwarmEffects.DeleteTakesEffect` | money-miner-backend/internal/store/store.go:399-408 | after the owner's delete no miner row, job, run or sample is about the miner, and every row of another miner is what it was, samples in order; for a stranger the jobs are cancelled all the same and no row is removed |
| `SwarmEffects.RevokeTakesEffect` | money-miner-backend/internal/store/store.go:863-877 | a revocation of the owner's unrevoked worker sets revoked_at to now and the status to revoked in that row alone, ends exactly its open jobs, and leaves its registered session, if up, closing with the revoke message last in its queue; otherwise nothing changes |
| `SwarmEffects.DeleteWorkerTakesEffect` | money-miner-backend/internal/api/handlers.go:476-484 | deleting a worker tells its registered session to leave whoever asks, and removes exactly the row and the worker's jobs for the owner, no row for a stranger |
| `SwarmEffects.AllocationTakesEffect` | money-miner-backend/internal/swarm/hub.go:503-517 | an allocation update sends one message per open job of the owner's miner to its holder's connection and changes nothing else; a stranger's changes nothing |
| `SwarmEffects.ConnectTakesEffect` | money-miner-backend/internal/swarm/hub.go:115-202 | a connection registers the worker on a new session with no jobs, closes its old one and marks it connected, and then assigns the queued miners one after another, each as in a start |
| `SwarmEffects.DisconnectTakesEffect` | money-miner-backend/internal/swarm/hub.go:204-216 | when the server's end of a session goes away its worker is in neither map and offline unless revoked, and nothing else changes |
| `SwarmEffects.WorkerReadTakesEffect` | money-miner-backend/cmd/worker/main.go:320-405 | a worker answers an assignment once, with ok exactly when it runs the engine from then on, stops what it is told to stop, and runs nothing after a revoke |
| `SwarmEffects.CreateTakesEffect` | money-miner-backend/internal/store/store.go:350-362 | one new miner row of that owner, in status created, under an id no row has had, and nothing else |
| `SwarmEffects.EnrollTakesEffect` | money-miner-backend/internal/swarm/codes.go:230-239 | one new worker row of that owner and kind, in status enrolled and not revoked, under an id no row has had, and nothing else |
| `SwarmForGood.RevokedGetsNothing` | money-miner-backend/internal/swarm/hub.go:115-124 | in every run after a revocation the worker is never let in again and no job of it is open |
| `SwarmForGood.DeletedMinerIsGone` | money-miner-backend/internal/store/store.go:399-408 | in every run after the owner's delete, whatever was in flight, no table has a row about the miner |
| `SwarmForGood.DeletedWorkerIsGone` | money-miner-backend/internal/store/store.go:879-888 | in every run after the owner's delete the worker has no row and no job, and is never let in |
| `SwarmShares.TotalsFollowReports` | money-miner-backend/internal/swarm/hub.go:319-348 | in every run the hub's totals of an open job grow by exactly the summed deltas of the reports handled for it, whatever else happens |
| `SwarmShares.HonestShares` | money-miner-backend/internal/swarm/hub.go:301-348 | from an acknowledgement on, in every run and for any engine counters behind the reports, the accepted and the rejected shares stored as samples of the job each sum to the hub's total, never exceed what the engine found, and equal the last counter iff that counter was not seen to fall |
| `SwarmShares.ClosedRunIsHonest` | money-miner-backend/internal/swarm/hub.go:472-500 | cancelling a miner with that one open job closes its run with those two sums, each so bounded |
| `SwarmAgreement.Agreement` | money-miner-backend/internal/swarm/hub.go:370-529 | in every run, an engine running on the working registered connection of a worker belongs to a job open for that worker, or a cancel or revoke for it is queued there |
| `SwarmAgreement.DrainedMeansOpen` | money-miner-backend/cmd/worker/main.go:264-405 | in every run, once the queue to a connected worker is drained, its running jobs are all open for it |
| `SwarmDelivery.StopReachesWorkers` | money-miner-backend/internal/swarm/hub.go:477-490 | a stop ends each open job of the miner and queues a cancel to every worker it can reach, losing nothing queued before |
| `SwarmDelivery.AllocationReachesWorkers` | money-miner-backend/internal/swarm/hub.go:503-517 | an allocation update is queued to every reachable holder of an open job of the miner and changes nothing but queues |
| `SwarmDelivery.ConnectPlacesQueued` | money-miner-backend/internal/swarm/hub.go:449-468 | on a connect in any state of the invariant, every miner of the worker's owner with status queued gets a new open job iff the scan's target for it still has its row and can be reached, the scan has a target whenever the new worker is a native one, and no other miner gets one |
| `SwarmOverlap.StopReachesIffRegistered` | money-miner-backend/internal/swarm/hub.go:472-500 | in every reachable state, a stop of the miner of an open job that runs on a working session, with no cancel of it queued yet, queues one there iff the session is its worker's registered one, and the job is over either way |
| `SwarmOverlap.RegisteredIffOrderly` | money-miner-backend/internal/swarm/hub.go:189-216 | every served session is its worker's registered one all through a run iff nobody connects while still registered |
| `SwarmOverlap.OverlapStrandsAnEngine` | money-miner-backend/internal/swarm/hub.go:204-208 | a concrete run with an overlapping reconnection in which a live, served, drained but unregistered session runs an engine whose job has ended |
| `SwarmServer.Server.PickTarget` | money-miner-backend/internal/swarm/hub.go:371-394 | the scan with its running minimum, in any map order, returns an eligible worker with the fewest jobs, or none iff none is eligible |
| `SwarmServer.Server.Assign` | money-miner-backend/internal/swarm/hub.go:370-436 | the new state is the transition system's assignment to such a target, and true is returned iff the assignment went out |
| `SwarmServer.Server.AssignQueued` | money-miner-backend/internal/swarm/hub.go:449-468 | the loop assigns every queued miner of the owner once, in some order |
| `SwarmServer.Server.CancelMiner` | money-miner-backend/internal/swarm/hub.go:472-500 | the loop cancels every open job of the miner once, in some order |
| `SwarmServer.Server.AllocationUpdate` | money-miner-backend/internal/swarm/hub.go:503-517 | the loop tells every holder of an open job of the miner |
| `SwarmServer.Server.HandleAck` | money-miner-backend/internal/swarm/hub.go:292-315 | the new state is the transition system's acknowledgement |
| `SwarmServer.Server.HandleMetrics` | money-miner-backend/internal/swarm/hub.go:319-352 | the new state is the transition system's metrics report, with the two signed delta tests |
| `SwarmServer.Server.Register` | money-miner-backend/internal/swarm/hub.go:189-202 | an older connection is closed, and both maps point at the new one with no jobs |
| `SwarmServer.Server.Unregister` | money-miner-backend/internal/swarm/hub.go:204-216 | both map entries of the worker go, whichever connection they were for |
| `SwarmServer.Server.HubRevokeWorker` | money-miner-backend/internal/swarm/hub.go:520-529 | a registered worker is told and its connection closed |
| `SwarmServer.Server.CloseRun` | money-miner-backend/internal/store/store.go:422-428 | exactly the open runs of the miner are closed with the given totals |
| `SwarmServer.Server.EndJobs` | money-miner-backend/internal/store/store.go:873-876 | exactly the open jobs of the worker are ended |
| `SwarmServer.Server.HandleStartMiner` | money-miner-backend/internal/api/handlers.go:308-346 | accepted iff the miner exists, is the owner's, is neither running nor queued, and has a wallet or is simulated; then it is queued with a new run and the start event happens, otherwise nothing; reported as assigned iff the assignment went out |
| `SwarmServer.Server.HandleStopMiner` | money-miner-backend/internal/api/handlers.go:348-360 | the stop event: found iff the miner is the owner's, which then is stopped with no open job; otherwise nothing happens |
| `SwarmServer.Server.HandleDeleteMiner` | money-miner-backend/internal/api/handlers.go:298-306 | the delete event, cancel first, ownership only in the DELETE: found iff the miner is the owner's, and then no row about it is left and every other row is; otherwise no row is removed |
| `SwarmServer.Server.HandleRevokeWorker` | money-miner-backend/internal/api/handlers.go:464-474 | the revoke event, two statements and then the hub: found iff the worker is the owner's and not revoked yet, and then it is revoked now, its open jobs are over and its session is closing with the message queued; otherwise nothing happens |
| `SwarmServer.Server.HandleDeleteWorker` | money-miner-backend/internal/api/handlers.go:476-484 | the delete event, the hub first, ownership only in the DELETE: found iff the worker is the owner's, and then exactly its row and its jobs are gone; otherwise no row is |
| `SwarmServer.Server.HandleConnect` | money-miner-backend/internal/swarm/hub.go:115-141 | refused exactly for an unknown or revoked worker, otherwise the connect event |
| `SwarmServer.Server.HandleMessage` | money-miner-backend/internal/swarm/hub.go:237-290 | the event of the server reading one message |
| `SwarmServer.Server.HandleDisconnect` | money-miner-backend/internal/swarm/hub.go:131-156 | the event of the server's end of a connection going away |
| `SwarmServer.Runner.HandleNext` | money-miner-backend/cmd/worker/main.go:320-405 | one turn of the worker's message loop is the transition system's, and only a revoke ends the session |
| `SwarmServer.Runner.ReadAll` | money-miner-backend/cmd/worker/main.go:320-405 | reading the whole queue leaves only engines it called for, all of them when every engine starts, and none after a revoke |
| `SwarmSections.MapsCohere` | money-miner-backend/internal/swarm/hub.go:189-342 | in every interleaving of critical sections and statements conns and live have the same keys, a live worker's jobs are indexed with the same miner, and each job is under one worker |
| `SwarmSections.PlacedInEveryInterleaving` | money-miner-backend/internal/swarm/hub.go:374-402 | however stale the scan, every job pairs a miner with a non-browser worker of its owner, and revoked goes with revoked_at |
| `SwarmSections.EndedAtMostOnce` | money-miner-backend/internal/store/store.go:921-933 | in every interleaving ended_at is written at most once per job |
| `SwarmSections.RevokedForGood` | money-miner-backend/internal/store/store.go:863-877 | in every interleaving a revoked worker's row never changes again |
| `SwarmSections.EndedStatusChangesIff` | money-miner-backend/internal/store/store.go:921-933 | one step changes the status text of an ended job exactly when it writes an acknowledgement into it that is not there yet |
| `SwarmSerial.EveryRunIsAnInterleaving` | money-miner-backend/internal/swarm/hub.go:189-529 | every run of whole handlers has an interleaving of statements and critical sections, with every read made before it is used, that ends with the same tables and hub maps |
| `SwarmLate.EndedStatusIff` | money-miner-backend/internal/store/store.go:921-933 | over any interleaving from the start, an ended job keeps the status it ended with iff no acknowledgement of it is written afterwards, one that is was looked up before the end, and ended_at stays |
| `SwarmLate.RevivedIff` | money-miner-backend/internal/swarm/hub.go:292-306 | over any interleaving, a miner stopped with no open job and not started again is at the end no longer stopped iff an acknowledgement's status was written for it with no stop after that, and every such acknowledgement was looked up before |
| `SwarmLate.LateAcknowledgement` | money-miner-backend/internal/swarm/hub.go:292-306 | a concrete interleaving in which a whole stop runs between lookup and writes, so the ended job reads as acknowledged and the stopped miner as running |
| `Shares.TotalExact` | money-miner-backend/internal/swarm/hub.go:331-341 | for any reports the summed deltas are the last counter plus everything counted before each visible drop |
| `Shares.TotalIsLastCounterIff` | money-miner-backend/internal/swarm/hub.go:331-341 | after an acknowledgement the sum is the last counter iff the counters never fell |
| `Shares.SharesConserved` | money-miner-backend/internal/swarm/hub.go:319-348 | shares found are counted, lost at a restart, or still to be reported, over any engine history |
| `Shares.NeverOvercounts` | money-miner-backend/internal/swarm/hub.go:319-348 | with arbitrary restarts the total never exceeds the shares the engine found |
| `Shares.ExactIffNothingLost` | money-miner-backend/internal/swarm/hub.go:319-348 | right after a report the total is exact iff no restart lost anything |
| `Shares.ExactWithoutRestart` | money-miner-backend/internal/swarm/hub.go:319-348 | without a restart the total is always the counter last seen |
| `Shares.TotalOfReports` | money-miner-backend/internal/swarm/hub.go:331-341 | the engine's view and the hub's sum over the reports agree |
| `Shares.HiddenRestart` | money-miner-backend/internal/swarm/hub.go:334-336 | a restart the counters hide loses shares although no counter ever fell |
| `Rollup.MetricStore.RollupOnce` | money-miner-backend/internal/store/store.go:521-540 | every bucket with a sample of a finished hour gets a row whose sum, count and share totals are those of the bucket's samples and whose maximum is one of them and at least each, every other row stays, and then exactly the samples older than 48 hours go, each statement at its own time |
| `Rollup.AggIsRowOver` | money-miner-backend/internal/store/store.go:521-537 | over a non-empty group a row is the aggregate iff its maximum is attained and bounds every hashrate of the hour and its sum, count and share totals are the sums over the hour's samples |
| `Rollup.MetricStore.RecentMetrics` | money-miner-backend/internal/store/store.go:473-494 | the newest n samples of the miner in chronological order, through the in-place reversal |
| `Rollup.ReverseInPlace` | money-miner-backend/internal/store/store.go:489-492 | the swapping loop turns the array around |
| `Rollup.RollupAgrees` | money-miner-backend/internal/store/store.go:521-540 | in any run of inserts and passes a bucket finished before the last upsert and not reached by a delete has a row iff a sample was ever recorded in it, and that row has exactly the sum, count, attained maximum and share totals of every such sample |
| `Rollup.RepeatChangesNothing` | money-miner-backend/internal/store/store.go:518-520 | however many passes repeat it, such a row changes no more until a delete reaches its bucket |
| `Rollup.DeletedWereAggregated` | money-miner-backend/internal/store/store.go:538-540 | when each delete runs at most 48 hours after the hour its upsert reached, every deleted sample had been read by an upsert |
| `Rollup.DeletedWereAggregatedIff` | money-miner-backend/internal/store/store.go:521-540 | in any run every deleted sample had been read by an upsert iff no delete reached a sample at or past the last upsert's hour |
| `Rollup.ReadMeansCounted` | money-miner-backend/internal/store/store.go:521-537 | a sample an upsert reads is among those whose aggregate it writes as the row of the sample's bucket |
| `Rollup.SplitBucketIff` | money-miner-backend/internal/store/store.go:530-538 | in any state of the invariant, an upsert leaves a finished bucket's exact row exact, in every column, iff deletes have taken none of the bucket's samples or all of them |
| `Rollup.KeptForeverIff` | money-miner-backend/internal/store/store.go:521-540 | over any run from the moment a finished bucket has its exact row, the row is exact at the end iff no upsert on the way found the bucket split by a delete |
| `Rollup.RowLosesASample` | money-miner-backend/internal/store/store.go:521-540 | a concrete run of inserts and passes after which the row of a finished hour lacks a sample |
| `Rollup.SplitBucketLosesShares` | money-miner-backend/internal/store/store.go:530-538 | when something of the bucket is left, the overwritten row loses exactly the accepted and rejected shares of the deleted part |
| `Rollup.AlignedRollupsAreForever` | money-miner-backend/internal/store/store.go:521-540 | when deletes run on the hour the rows of all finished buckets stay exact for ever, after their samples are gone |
| `JoinCode.GenerateCode` | money-miner-backend/internal/swarm/codes.go:44-68 | the nested packing loop yields the ten base-32 digits of the top 50 bits of the draw, and its accumulator fits 56 bits |
| `JoinCode.CodeReadsBack` | money-miner-backend/internal/swarm/codes.go:44-68 | the displayed code is four, four and two base-32 digits between dashes that read back as the top 50 of the 56 bits drawn |
| `JoinCode.SameCodeIffSameTopBits` | money-miner-backend/internal/swarm/codes.go:44-68 | two draws give one code iff their top 50 bits agree |
| `JoinCode.EachCodeHas64Draws` | money-miner-backend/internal/swarm/codes.go:40-68 | every ten-symbol code comes from exactly 64 draws |
| `JoinCode.NormalizeIdentifiesSpellings` | money-miner-backend/internal/swarm/codes.go:72-76 | two strings normalise alike iff they differ only in case, dashes, spaces and the lookalikes O/0 and I/L/1 |
| `JoinCode.NormalizeIdempotent` | money-miner-backend/internal/swarm/codes.go:72-76 | normalising twice is normalising once |
| `JoinCode.GeneratedCodeSpellings` | money-miner-backend/internal/swarm/codes.go:72-76 | a generated code normalises to its ten symbols, and exactly its spellings normalise to the same |
| `Enrollment.EnrollmentBijection` | money-miner-backend/internal/swarm/codes.go:185-255 | over every interleaving of create, pick, commit, revoke, worker deletion and expiry, workers and consumed codes correspond one to one with equal owners |
| `Enrollment.RedemptionsBalance` | money-miner-backend/internal/swarm/codes.go:218-255 | redemptions of a code equal its current holder plus the deletions that released it |
| `Enrollment.SingleUseWithoutDeletion` | money-miner-backend/internal/swarm/codes.go:185-255 | without worker deletion each code is redeemed at most once in the whole run |
| `Enrollment.ReusableAfterDeletionIff` | deploy/migrations/V4__join_codes_consumed_by_set_null.sql:5-8 | deleting its worker makes a code redeemable again iff it has not expired |
| `Enrollment.CodeRedeemedTwice` | deploy/migrations/V4__join_codes_consumed_by_set_null.sql:5-8 | for every draw there is a run in which one code enrols two workers |
| `Enrollment.EverySpellingMatches` | money-miner-backend/internal/swarm/codes.go:186-214 | a typed string matches a redeemable code's row iff it spells the displayed code |
| `Enrollment.RefusedForever` | money-miner-backend/internal/swarm/codes.go:285-306 | a worker refused once, revoked or with an expired browser token, is refused in every later state |
| `Enrollment.AuthenticatedIff` | money-miner-backend/internal/swarm/codes.go:285-306 | at any moment of any run after a successful enrolment at which the worker exists, it is refused iff the owner of its code has revoked it since, or it is a browser and more than 24 hours have passed; otherwise it is that owner's worker of the kind it enrolled as |
| `Enrollment.CodeOpenIff` | money-miner-backend/internal/swarm/codes.go:185-214 | at any moment after its creation a typed text matches a code iff it spells it, less than 15 minutes have passed, the owner has not withdrawn it while unused, and every redemption has been released by deleting its worker |
| `Enrollment.Codes.CreateCode` | money-miner-backend/internal/swarm/codes.go:111-129 | the code of the draw, normalised, is stored for its owner with an expiry 15 minutes from now and displayed |
| `Enrollment.Codes.RevokeCode` | money-miner-backend/internal/swarm/codes.go:151-161 | the row goes and true is returned iff it is the owner's and unused |
| `Enrollment.Codes.FindMatch` | money-miner-backend/internal/swarm/codes.go:192-214 | the row scan, in any order, finds a redeemable matching row iff there is one |
| `Enrollment.Codes.CheckCode` | money-miner-backend/internal/swarm/codes.go:259-281 | accepts iff some redeemable row matches |
| `Enrollment.Codes.EnrollPick` | money-miner-backend/internal/swarm/codes.go:185-217 | the pick event, remembering the row for the transaction |
| `Enrollment.Codes.EnrollCommit` | money-miner-backend/internal/swarm/codes.go:218-255 | the commit event: succeeds iff the picked row is still redeemable, and rolls back otherwise |
| `Enrollment.Codes.RemoveWorker` | money-miner-backend/internal/store/store.go:879-888 | the worker deletion event, which releases the code the worker consumed |
| `Sse.Client.Feed` | money-miner-frontend/src/api/client.ts:72-95 | one chunk emits the events of the buffer's complete frames and keeps the rest |
| `Sse.Subscribe` | money-miner-frontend/src/api/client.ts:72-95 | the read loop over any chunks |
| `Sse.WriteStream` | money-miner-backend/internal/api/handlers.go:693-723 | the write loop prints the comment `: connected`, then every item in order |
| `Sse.ChunkingIrrelevant` | money-miner-frontend/src/api/client.ts:72-95 | on any input the emitted events depend only on the concatenation of the chunks |
| `Sse.LeftoverIgnoresChunking` | money-miner-frontend/src/api/client.ts:72-76 | and so does what is left in the buffer |
| `Sse.RoundTrip` | money-miner-backend/internal/events/events.go:84-91 | events with one-line trimmed types and one-line trimmed valid data, mixed with heartbeats and split anywhere, come out exactly and in order |
| `Sse.EmittedAreClean` | money-miner-frontend/src/api/client.ts:79-90 | whatever arrives, an emitted event has a one-line trimmed type and valid one-line data |
| `Sse.SurvivesIffPrintable` | money-miner-backend/internal/events/events.go:84-91 | an event survives the trip iff it is of that printable kind |
| `Sse.MarshalFields` | money-miner-backend/internal/events/events.go:84-91 | an event is two lines and an empty one: a field named event with its type and a field named data with its payload, as the standard reads fields |
| `Sse.ReadLinesMean` | money-miner-frontend/src/api/client.ts:79-90 | of a frame's lines the client keeps the last event field, message if there is none, and the data fields put together |
| `Sse.BufferIsFrames` | money-miner-frontend/src/api/client.ts:72-78 | any buffer is complete frames, none with an empty line inside, and a rest with none, and the events are those of the frames in order |
| `Sse.TrimTakesSpace` | money-miner-frontend/src/api/client.ts:79-90 | trimming takes nothing but white space, and only from the ends |
| `Template.Confluent` | money-miner-backend/internal/engine/adapter/adapter.go:160-181 | for unnested templates and brace-free values sequential replacement in every map order is one simultaneous substitution |
| `Template.NoKnownPlaceholderSurvives` | money-miner-backend/internal/engine/adapter/adapter.go:160-181 | no known placeholder is left in the result |
| `Template.UnknownStaysVerbatim` | money-miner-backend/internal/engine/adapter/adapter.go:160-181 | an unknown placeholder stays and separates what is rendered around it |
| `Template.NestedIsNotConfluent` | money-miner-backend/internal/engine/adapter/adapter.go:174-180 | with nested braces the order shows |
| `Template.BracedValueIsNotConfluent` | money-miner-backend/internal/engine/adapter/adapter.go:174-180 | with braces in a value the order shows |
| `Template.PoolUrlRoundTrip` | money-miner-backend/internal/engine/adapter/adapter.go:184-194 | a pool URL takes apart into the host, plain or bracketed, and the port it was made of, with or without a trailing slash |
| `Template.PoolUrlWithoutPort` | money-miner-backend/internal/engine/adapter/adapter.go:184-194 | an address without a port is all host, with or without a scheme and a trailing slash |
| `Template.ReplTableGood` | money-miner-backend/internal/engine/adapter/adapter.go:161-172 | the table renderArgs builds has placeholder keys and brace-free values when the configuration has |
| `Template.RenderArg` | money-miner-backend/internal/engine/adapter/adapter.go:174-179 | the loop over the table renders in some order of all its keys |
| `Template.RenderArgs` | money-miner-backend/internal/engine/adapter/adapter.go:160-181 | every argument of text and slots comes out with its text as it was and each slot showing what it names: the pool URL, its host and port, the wallet, the worker name, numerals that read back as max(1, threads), the API port and the intensity, and any other slot left as it was; an argument that is one slot comes out as that value |
| `Template.SubstRenders` | money-miner-backend/internal/engine/adapter/adapter.go:160-181 | the simultaneous substitution of renderArgs's table shows in each slot that meaning, piece by piece, whatever the template |
| `LogTail.Engine.TailLogs` | money-miner-backend/internal/engine/adapter/adapter.go:222-244 | over any reads the log is the last 50 complete lines of the concatenated stream |
| `Base.LastNSuffix` | money-miner-backend/internal/engine/adapter/adapter.go:236-239 | what is kept is the end of what there was, n lines or all of them when fewer |
| `LogTail.Engine.ReadChunk` | money-miner-backend/internal/engine/adapter/adapter.go:226-240 | one read appends exactly the lines it completes and carries the partial one |
| `LogTail.LinesRebuild` | money-miner-backend/internal/engine/adapter/adapter.go:222-244 | complete lines and partial line put together are the stream |
| `LogTail.LinesUnique` | money-miner-backend/internal/engine/adapter/adapter.go:222-244 | nothing else takes a stream apart like that |
| `LogTail.WorkerLogIsTail` | money-miner-backend/internal/swarm/hub.go:583-592 | after any interleaving of appends each worker's log is the last 20 of its own lines |
| `LogTail.WorkerLogs.AppendLog` | money-miner-backend/internal/swarm/hub.go:583-592 | the worker's log is the last 20 of its old lines and the new one, and no other worker's log changes |
| `Broker.RunKeepsInv` | money-miner-backend/internal/events/events.go:31-81 | in every run an owner has one to five subscribers or no entry, and a queue at most 32 events |
| `Broker.NoSendOnClosed` | money-miner-backend/internal/events/events.go:57-81 | nothing is ever sent to a closed channel or to a stranger's |
| `Broker.InOrderSubsequence` | money-miner-backend/internal/events/events.go:31-81 | what a subscriber received plus its queue is an in-order subsequence of what was published to it |
| `Broker.NothingUnaccounted` | money-miner-backend/internal/events/events.go:57-81 | received, queued and dropped add up to what was published |
| `Broker.LosslessIffNeverFull` | money-miner-backend/internal/events/events.go:57-68 | everything arrives iff the queue was never full at a publication |
| `Broker.Broker.SubscribeOwner` | money-miner-backend/internal/events/events.go:31-45 | refused exactly when the owner has five, otherwise one fresh open channel is added to the owner's |
| `Broker.Broker.Unsubscribe` | money-miner-backend/internal/events/events.go:45-54 | detach under the lock, then close; no empty set is kept |
| `Broker.Broker.PublishTo` | money-miner-backend/internal/events/events.go:57-68 | each channel of the owner with fewer than 32 events queued has the event at its end, and no other channel changes |
| `Broker.Broker.PublishEverywhere` | money-miner-backend/internal/events/events.go:70-81 | the nested loops give the event once to every subscribed channel with fewer than 32 queued, and change no other |
| `Stratum.CompletesWithOwnId` | money-miner-backend/internal/stratum/client.go:180-202 | over all interleavings a Call completes only with its own response or its own failure |
| `Stratum.RepliesAreGenuine` | money-miner-backend/internal/stratum/client.go:98-202 | what a Call returns was read from the connection with that id, or is the failure sent to that call |
| `Stratum.ReaderNeverBlocks` | money-miner-backend/internal/stratum/client.go:98-133 | whenever the reader is about to send there is room, also for late, duplicate and abandoned answers |
| `Stratum.AtMostOneValue` | money-miner-backend/internal/stratum/client.go:98-202 | each channel receives at most one value in the whole run |
| `Stratum.PendingUntilAnswered` | money-miner-backend/internal/stratum/client.go:180-202 | a waiting call has been sent nothing exactly while it is in the table or in the reader's hand |
| `Stratum.Client.StartCall` | money-miner-backend/internal/stratum/client.go:180-190 | allocate an id and a channel and register them |
| `Stratum.Client.Dispatch` | money-miner-backend/internal/stratum/client.go:109-131 | look up, forget and send, or drop an unknown id |
| `Stratum.Client.FailAll` | money-miner-backend/internal/stratum/client.go:170-178 | every pending call is sent one failure and the table is empty |
| `Payouts.ExtractPayments` | money-miner-backend/internal/payouts/poller.go:146-197 | one payment per object of the list, reading the first transaction key and the last readable amount and time |
| `Payouts.LedgerHoldsFirstAmount` | money-miner-backend/internal/payouts/poller.go:98-142 | after any polls the ledger holds per transaction the first positive amount ever seen |
| `Payouts.LedgerUnique` | money-miner-backend/internal/store/store.go:775-788 | never two rows for one currency and transaction id |
| `Payouts.EveryRowIsAPayment` | money-miner-backend/internal/payouts/poller.go:117-142 | every row added books a positive payment of some poll: its amount, id and time, and that poll's owner, currency, pool and explorer link |
| `Payouts.EveryPaymentIsBooked` | money-miner-backend/internal/payouts/poller.go:117-142 | no positive payment of any poll is missed: a row of its currency has its id, or books it when it has none |
| `Payouts.ExplorerLink` | money-miner-backend/internal/payouts/poller.go:121-124 | the link is the explorer's template with the id in its place, and empty without an id |
| `Payouts.RepollAddsOnlyUntracked` | money-miner-backend/internal/payouts/poller.go:98-142 | polling a response again adds exactly its payments without a transaction id |
| `Payouts.RepollIdempotentIff` | money-miner-backend/internal/payouts/poller.go:98-142 | so re-polling adds nothing iff every positive payment has one |
| `Payouts.OneEventPerRow` | money-miner-backend/internal/payouts/poller.go:125-142 | over any polls from an empty ledger one event per row is published, with the row's owner, currency, amount, id and link and verified iff there is a link, never two for one currency and transaction id, and one for a transaction iff it is for the first positive amount seen |
| `Payouts.Ledger.InsertPayout` | money-miner-backend/internal/store/store.go:775-788 | inserts unless a row conflicts, and says which |
| `Payouts.Ledger.Check` | money-miner-backend/internal/payouts/poller.go:98-142 | records a response row by row and publishes for inserted rows only |

## Left out

- HTTP routing, JSON, CORS, authentication, TLS, configuration and rate limits.
- Postgres, bcrypt, SHA-256 and websockets: tables are maps and sequences with atomic statements, a bcrypt comparison is equality of the hashed input, a token is looked up as its worker row, a connection is two FIFO queues. Store calls succeed.
- Handlers interleaving statement by statement, for agreement and run finalisation: these are proved with each handler one step, so a Stop that falls between the statements of another handler is not covered. The map, placement and terminal-state properties are proved at statement level in `SwarmSections`, and revival in `SwarmLate`.
- Sends in `SwarmSections`: they change no table and no hub map.
- SwarmAgreement.Agreement: speaks of workers whose registered connection is not broken; on a broken one a cancel is lost, and the worker's session ends with its engines once it notices.
- Rollup.DeletedWereAggregated: assumes each pass's delete to run at most 48 hours after the hour its upsert reached, because the two statements read the clock separately; without that assumption `Rollup.DeletedWereAggregatedIff` gives the exact condition.
- JoinCode.NormalizeIdentifiesSpellings: upper-casing covers ASCII and the two other characters whose capital is an ASCII letter; other letters stay as they are.
- The restart of an engine by an allocation update: the worker's jobs map does not change, and the counters' restart is in `Shares`. Whether the restart applies the new percentages is not modelled.
- The UTF-8 decoder in front of the event parser: chunks are decoded text.
- net.SplitHostPort, fmt.Sscanf and time.Parse: the first follows its documented separator and bracket rules, the others are parameters.
- A failing random source: the bytes of a join code are a parameter.
- Several tailers of one engine: after a quick restart the previous one may still be reading its pipe.
- The cascade that deletes a miner's rollups; averages are a sum and a count over reals.
- Integer widths: counters are unbounded naturals, so the int64 totals and the 32-bit sample columns are assumed not to overflow. Negative counters, which no engine reports, are excluded.
- Columns no property reads: a run's average hashrate and stop reason, live hashrate, last message time, capabilities, names, allocation percentages, a payout's raw document and wallet; hello, pong, log and share messages; the hub's publications.
- The supervisor's ping, the reconnect back-off and its jitter: a connection may break at any time instead.
- The 24 hour limit of browser tokens at connect; it is in `Enrollment.AuthenticatedIff`.
- Engine processes, binary lookup, stats parsing, the native and simulated engines; React pages, hashrate formatting, pagination.
