# Verification of mysql-keeper's switchover and replication-error logic

mysql-keeper promotes a remote MySQL cluster and demotes the local one while any step can
fail, keeps a lease so that one controller acts at a time, reroutes ProxySQL, and skips
failing replicated transactions within limits. This project models those state machines in
Dafny and proves what they promise over every fault pattern, every input, or every run.

MySQL, ProxySQL and the policy resource are abstract state. Every call on them succeeds or
fails as it likes. Except where the text below says otherwise, a failed call may or may not
have been applied. Where the program changes state step by step, the model is a class or a
method with a loop; the specification it is proved against is a function, and the promises
are lemmas about that function, or about the log of calls.

| file | models |
|---|---|
| `Clusters.dfy` | the two clusters, the calls a switchover makes, and the log of those calls |
| `Preflight.dfy` | the checks before a switchover, in particular the GTID gate |
| `Protocol.dfy` | the rules on call order that prevent two writers, for logs of any length |
| `Attempt.dfy` | one attempt as a trace: what is undone, when two writers remain, when the start is restored |
| `Progress.dfy` | the checkpoints on the policy resource |
| `Engine.dfy` | `Execute`, its phases and the rollback |
| `BoundedHistory.dfy` | a history pruned by age and capped at 50, against the log it stands for |
| `SkipHistory.dfy` | the rate limiter, the quarantine decision and the status update |
| `SkipRuns.dfy` | what holds of limiter and quarantine over whole runs |
| `SkipRecipe.dfy`, `SqlText.dfy` | the SQL that skips a transaction, as a session under faults; its literals |
| `Labels.dfy` | label keys, gauges and events for observed errors |
| `Lease.dfy` | the leader lease with two clocks and any number of callers |
| `Routing.dfy` | two-phase routing and the blackhole fence over N ProxySQL instances |
| `Faults.dfy` | the outcome of a remote operation: what was reported, and whether it took effect |
| `RoutedWrites.dfy` | that the tables of `Routing.dfy` behave as the routes in `Clusters.dfy` |
| `Peers.dfy` | the two controllers, one beside each cluster, and their interleaved attempts |
| `GtidText.dfy`, `Text.dfy` | the GTID set counter as a parser; the string operations it uses |
| `Counters.dfy` | the health counters and the failover decision |

How to read the switchover results together. `Engine.Execute` keeps the log of calls
*disciplined* (`Protocol.Disciplined`). `Protocol.NeverTwoWriters` then says, for logs of any
number of attempts, that two writers need one of two faults: a promotion that reported
failure but was applied, or a demotion that was not applied. "Two writers" means that the
local side takes writes through some ProxySQL while the remote accepts writes from anyone.
The sides record for each ProxySQL instance whom its staging and its runtime table send
writes to; `RoutedWrites.RouteAll` and `RoutedWrites.FenceAll` show that real tables move that
way. `Attempt.TwoWritersIff`, `Attempt.NoWriterIff` and `Attempt.RestoredIff` say exactly what one
attempt leaves. All of this is about one controller; `Peers.TurnsKeepOneWriter` extends it to
both as long as their attempts do not overlap, and `Peers.OverlapMakesTwoWriters` shows what
happens when they do.

## Claims that do not hold, and what does

- Rolling back restores both sides: only under the condition of `Attempt.RestoredIff`. No
  attempt lifts a blackhole or a routing change that was loaded, and the local side is
  re-enabled even when demoting the remote failed. If the routing change failed only at the
  save, nobody takes routed writes afterwards (`Attempt.LoadedRoutingLeavesNobody`).
- At most MaxSkipsPerWindow skips in a window: where anything can be skipped at all, exactly
  when MaxSkipsPerWindow is at most 50 and the window is at most the history retention
  (`SkipRuns.LimitHoldsIff`).
- A quarantine ends only on an operator's request: a cycle in which detection does not happen
  also ends it (`SkipRuns.BlindCycleEndsQuarantine`), and the model counts such cycles as releasing.
- docs/replication-error-handling.md:131-133 says that a release is retried while the
  annotation stays. The code never retries a refused value (`SkipRuns.RefusedOnce`).
- internal/proxysql/manager.go:75-77 announces a rollback after a failed commit. The code has
  none; `Routing.ApplyFailoverRouting` states what is left instead, and `RoutedWrites.MixedCommit`
  which instances then disagree about the writer.
- internal/proxysql/manager.go:113-115 calls rows staged by an aborted change harmless. The next
  fence loads them (`Routing.FencePublishesStagedWriter`).
- The blackhole fence works for any node: a node listed in two hostgroups cannot be fenced
  (`Routing.TwoHostgroupsBlockTheFence`).
- The GTID counter accepts what MySQL accepts: white space beside the dash of a range loses
  the range (`GtidText.CountIsCardinality`, `GtidText.SpacedDashIsLost`), and a uuid listed in
  two spellings is counted as two sources (`GtidText.SpellingsAreOneSource`).
- Undoing phases in reverse order is safe for any completed prefix: the routing rollback
  readmits a blackholed local side before the remote is demoted. `Engine.Engine.Rollback`
  states exactly when that happens; no attempt gets there (`Attempt.NeverRestoresRouting`).
- A failed attempt leaves somebody to write to: `Attempt.NoWriterIff` says when it does not.
- The read-only check of preflight keeps two controllers apart: it passes as soon as the other
  one has fenced its own side (`Peers.OverlapMakesTwoWriters`). Only the lease keeps them apart,
  and only while the holder's last heartbeat is recent (`Lease.AttemptIsShielded`).
- Reaching the routing phase without a ProxySQL manager calls a method on nil. The attempt then
  ends without a rollback (`Panicked` in `Engine.Result`, `Attempt.CommittedStays`).
- Quoting a channel name is safe in every SQL mode: with NO_BACKSLASH_ESCAPES the server sees
  the intended name exactly when it has no backslash (`SqlText.QuotedReadsIff`).

## Model

| member | source | states |
|---|---|---|
| Protocol.FencedWhilePromoted | internal/switchover/engine.go:254-354 | over any log that obeys the discipline, a SQL fence in force keeps the local side read-only, a blackhole in force (which a routing rollback ends) keeps routed writes off it, and a writable remote is one promoted behind such a fence unless an unmaskable fault occurred |
| Protocol.NeverTwoWriters | internal/switchover/engine.go:254-354 | at every point of every disciplined log of any number of attempts, the local side takes routed writes while the remote is writable only if a promotion reported as failed was applied or a demotion was not |
| Protocol.ExcusedIff | internal/switchover/engine.go:504-528 | the excused faults are exactly a promotion applied though reported failed, or a demotion not applied, since the last passed preflight |
| Protocol.BothWritableOnlyBehindBlackhole | internal/switchover/engine.go:254-354 | counting every client and not only those of ProxySQL, both sides are writable only after one of these faults or behind a blackhole |
| Protocol.EnableOnlyAfterFence | internal/switchover/engine.go:387-427 | the remote is write-enabled only after a SQL fence that succeeded, or a blackhole on every ProxySQL made right after a failed SQL fence with the local side not reported reachable, with no re-enabling since |
| Protocol.EnabledBehindAFence | internal/switchover/engine.go:387-427 | every enabling call has an earlier call, a SQL fence reported done or a full blackhole after a failed fence with the local side not reported reachable, with no re-enabling and no new preflight between |
| Protocol.FenceHasCause | internal/switchover/engine.go:387-427 | a fence that holds can be traced to the call that established it |
| Protocol.DemotionComesFirst | internal/switchover/engine.go:504-528 | between a successful promotion and any later re-enabling of the local side within the attempt lies an attempted demotion of the remote |
| Protocol.RoutingRollbackLiftsBlackhole | internal/switchover/engine.go:521-525 | a log in which undoing the routing before the promotion, behind a blackhole alone, leaves two writers without either excused fault; the discipline forbids it |
| Attempt.UndoMirrorsProgress | internal/switchover/engine.go:504-528 | the log shows the completed phases without a gap up to the failed one, and the undo calls are exactly their reverse after a fence, promotion or routing failure, and none otherwise |
| Attempt.SidesAfter | internal/switchover/engine.go:273-354 | the writability of both sides and every staging and runtime route after an attempt, wherever it stopped and for every outcome of every call |
| Attempt.RuntimeAfter | internal/switchover/engine.go:387-455 | where ProxySQL sends writes after an attempt, by which instances loaded its fence and its routing change, and what an earlier aborted change had left staged |
| Attempt.TwoWritersIff | internal/switchover/engine.go:504-528 | an attempt ends with two writers exactly when the SQL fence was the one that held, the promotion took effect, the rollback re-enabled the local side without the remote being demoted, and some instance that sent writes to the local side did not load the routing change |
| Attempt.NoWriterIff | internal/switchover/engine.go:504-528 | an attempt ends with no side taking routed writes exactly when the local side is read-only or every instance that sent it writes loaded a fence or a routing change, and the remote is read-only or no instance sends it writes |
| Attempt.LoadedRoutingLeavesNobody | internal/switchover/engine.go:315-322 | a routing change loaded everywhere that then fails to save: the rollback makes both sides as writable as before, yet nobody takes a routed write |
| Attempt.FailedBlackholeSticks | internal/switchover/engine.go:414-424 | a blackhole loaded everywhere that then fails to save is not undone, and leaves no writer |
| Attempt.FailedFenceSticks | internal/switchover/engine.go:294-299 | a SQL fence that reported failure but was applied leaves the local side read-only, with nothing undone |
| Attempt.RestoredIff | internal/switchover/engine.go:304-322 | a promotion or routing failure leaves writability and runtime routes as they were exactly under the stated outcomes of fence, promotion, routing and undo calls |
| Attempt.RestoredBehindSqlFence | internal/switchover/engine.go:392-396 | behind a SQL fence the condition on the routes is only about what the routing change loaded |
| Attempt.CommittedStays | internal/switchover/engine.go:326-354 | once routing has passed, or crashed for want of a ProxySQL, nothing is undone and the local side takes no routed write; and if it passed, every instance sends writes to the remote only |
| Attempt.NeverRestoresRouting | internal/switchover/engine.go:315-324 | no attempt calls the routing rollback |
| Attempt.FenceEscalates | internal/switchover/engine.go:387-427 | a fence passes exactly if its SQL fence or its blackhole succeeded; the blackhole is made exactly when the SQL fence failed, there is a ProxySQL and no probe found the local side reachable; where there is an inspector it probes |
| Attempt.PromoteStopsReplication | internal/switchover/engine.go:431-451 | a promotion is one enabling call, and if that succeeds replication on the remote is stopped and reset wherever there is a controller and a channel |
| Attempt.NothingHoldsBack | internal/switchover/engine.go:254-354 | each phase is tried exactly when the one before it succeeded |
| Attempt.OnlyVerifyRemains | internal/switchover/engine.go:254-354 | if the drain is over and every fence, promotion and routing call made succeeded, only the verification can still fail |
| Attempt.WhatIsUndone | internal/switchover/engine.go:504-528 | a failed promotion re-enables the local side; a failed routing change demotes the remote and then re-enables the local side; nothing else undoes |
| Engine.Engine.PhasePreFlight | internal/switchover/engine.go:359-377 | passing means a read-only, correctly configured remote that has everything local had executed before (or an accepted loss when local could not be read); failing means a stated reason or a failed read |
| Engine.Engine.PhaseFence | internal/switchover/engine.go:387-427 | the calls made are one of the legal fence escalations, and success means a fence holds |
| Engine.Engine.PhasePromote | internal/switchover/engine.go:431-451 | the remote is enabled behind a fence; replication is stopped and reset afterwards, whatever those calls say |
| Engine.Engine.PhaseReverseReplica | internal/switchover/engine.go:460-485 | stops and resets the former source's channel where configured, ending at the first failure |
| Engine.Engine.PhaseVerify | internal/switchover/engine.go:490-499 | passes exactly when the remote was read as writable, and a read that has no answer is a failed one |
| Engine.Engine.Rollback | internal/switchover/engine.go:504-528 | for any completed prefix of the phases, the undo calls are the reverse of its undoable phases, in spite of failures; the discipline survives exactly when no routing is undone in front of a promoted remote that only a blackhole keeps alone |
| Engine.RollbackUndoes | internal/switchover/engine.go:504-528 | a rollback demotes, re-enables and restores the routing exactly as promotion, fence and routing are among the completed phases |
| Engine.Engine.Execute | internal/switchover/engine.go:254-354 | keeps the discipline; a closed gate leaves no call and has a stated reason; otherwise the calls form an attempt that reached the reported phase, and the sides are what they amount to; the remote has, when it is promoted, everything a readable local side had executed when the attempt began, whatever loss is accepted; it succeeds whenever no fence, promotion and routing call failed, no drain was cancelled, no read failed and the remote is writable; the reported phases are exactly those passed, in order, and stored unless a write was lost |
| Engine.PassedInOrder | internal/switchover/engine.go:273-350 | the phases reported complete are in engine order and are those before the failed one, a failed reverse replica left out |
| Progress.Reporter.constructor | internal/controller/progress.go:37-44 | a new reporter is consistent with a resource that holds nothing, another attempt, or the empty checkpoint of this one |
| Progress.Reporter.WriteProgress | internal/controller/progress.go:95-131 | a write that is not lost stores this attempt's phase, completed phases and failure; a lost one changes nothing |
| Progress.Reporter.OnPhaseStart | internal/controller/progress.go:46-54 | the checkpoint shows this phase as current unless the write was lost |
| Progress.Reporter.OnPhaseComplete | internal/controller/progress.go:56-69 | appends one phase; the checkpoint shows the completed ones unless the write was lost |
| Progress.Reporter.OnPhaseError | internal/controller/progress.go:71-84 | records the failure without touching the completed phases; the checkpoint shows it unless the write was lost |
| Clusters.World.MissingGTIDs | internal/pxc/gtid.go:124-147 | the difference between a set and the executed set; empty only if the set is contained; an error yields the empty set |
| Clusters.World.WaitForGTID | internal/pxc/gtid.go:152-188 | success means the set is contained in the executed set |
| Preflight.OK | internal/switchover/preflight.go:57-67 | passes exactly when no hard check failed |
| Preflight.Failed | internal/switchover/preflight.go:70-81 | lists the failed checks, each in its place and as often as it occurs |
| Preflight.CheckRemoteReachableReadOnly | internal/switchover/preflight.go:164-183 | passes only if the remote is not writable, and fails only if it is, there is none, or a read failed |
| Preflight.CheckRemoteReplicationRunning | internal/switchover/preflight.go:185-225 | a stopped channel fails unless data loss is accepted; a missing one passes; otherwise only a failed read fails |
| Preflight.GtidChecks | internal/switchover/preflight.go:229-366 | while both sides commit, replicate and purge: with a local snapshot the subset check passes only if the remote has it, whatever loss is accepted; without one everything passes exactly if loss is accepted; and with no failed read and no abandoned wait the checks pass whenever they should |
| Preflight.SettingChecks | internal/switchover/preflight.go:368-464 | the three hard setting checks pass exactly when the settings fit, unless a read failed; retention is soft |
| Preflight.Run | internal/switchover/preflight.go:131-160 | what a passed gate means: a read-only remote with fitting settings that has the local snapshot, or accepted loss without one; and that it passes whenever this holds and no read failed |
| BoundedHistory.PruneSkipsByRetention | internal/controller/replication_errors.go:474-490 | keeps every entry within the retention as often as it was there, and no other |
| BoundedHistory.CountSinceIsCardinality | internal/controller/replication_skip.go:304-326 | the window count is the number of entries at or after the cutoff |
| BoundedHistory.HistoryCount | internal/controller/replication_errors.go:343-348 | over any run of updates, counting a window in the pruned, capped history equals counting it in the full log, saturated at 50 |
| BoundedHistory.HistoryIsSorted | internal/controller/replication_errors.go:494-501 | the history stays in time order and within the cap |
| BoundedHistory.LimitedMeansWindows | internal/controller/replication_skip.go:304-326 | room at each append bounds every closed interval of the window's length |
| BoundedHistory.LimitedAppend | internal/controller/replication_skip.go:140-271 | appending several simultaneous skips that fit keeps the limit |
| SkipHistory.CountSkipsInWindow | internal/controller/replication_skip.go:304-326 | counts history and pending skips no older than the window |
| SkipHistory.MaySkip | internal/controller/replication_skip.go:140-200 | an error may be skipped exactly when whitelisted, its GTID known, and the window has room |
| SkipHistory.AdmitOne | internal/controller/replication_skip.go:140-271 | what one error adds to the recorded skips and to the SQL |
| SkipHistory.AdmitErrors | internal/controller/replication_skip.go:140-271 | the recorded skips and the issued SQL for any list of errors |
| SkipHistory.ApplyAutoSkip | internal/controller/replication_skip.go:78-271 | what a detecting cycle records and issues, and the exact conditions under which it starts, ends or keeps a quarantine |
| SkipHistory.EvaluateQuarantine | internal/controller/replication_skip.go:343-390 | quarantine starts exactly when more than the threshold of skips lie in the window; it ends exactly on a changed non-empty annotation with no active error and the count back at the threshold; any other changed annotation is refused |
| SkipHistory.UpdateReplicationErrorStatus | internal/controller/replication_errors.go:329-418 | the pruned and extended history cut to its newest 50, a quarantine that starts at the time of the update, and the annotation that is remembered |
| SkipHistory.Reconcile | internal/controller/replication_errors.go:100-135 | one reconcile, blind or detecting: the new quarantine time, whether a request is refused, and that whatever annotation is seen during a quarantine is remembered |
| SkipRuns.RunTracks | internal/controller/replication_errors.go:343-348 | along any run the stored history is the bounded history of all recorded skips |
| SkipRuns.SkipsIff | internal/controller/replication_skip.go:78-271 | SQL is issued, and a skip recorded, exactly when skipping is on, no quarantine is in force, the window has room and some error is whitelisted with its GTID known |
| SkipRuns.LogIsAdmissible | internal/controller/replication_skip.go:140-271 | over any run, whatever is recorded was whitelisted with its GTID known, and is marked as a dry run exactly in a dry run |
| SkipRuns.SkipsPerWindow | internal/controller/replication_skip.go:140-271 | every closed interval of length Window contains at most MaxSkipsPerWindow recorded skips, over any run |
| SkipRuns.LimitHoldsIff | internal/controller/replication_skip.go:140-271 | for every effective configuration, the limit holds over all runs of possible observations exactly when nothing can be skipped at all, or MaxSkipsPerWindow is at most 50 and the window at most the retention |
| SkipRuns.NeverSkips | internal/pxc/replication.go:312-312 | a configuration that is off, or whose whitelist names only errors that detection never reports, records no skip in any run |
| SkipRuns.LimitBreaks | internal/controller/replication_errors.go:474-501 | otherwise some such run, with distinct transactions of one source on a named channel, exceeds it |
| SkipRuns.BurstIsAccepted | internal/pxc/replication.go:389-398 | every injection of that run passes the guard on channel and GTID |
| SkipRuns.QuarantineCountsLog | internal/controller/replication_skip.go:343-390 | a detecting cycle starts quarantine, at the update's time, on the full log's window count, saturated at 50 |
| SkipRuns.QuarantineRefinesLog | internal/controller/replication_skip.go:343-390 | with a threshold below 50 quarantine starts exactly when the skips ever recorded in the window exceed it |
| SkipRuns.QuarantinedCycle | internal/controller/replication_skip.go:126-138 | a quarantined cycle issues no SQL and records nothing; when it ends the quarantine, and that its annotation is remembered |
| SkipRuns.QuarantineLastsIff | internal/controller/replication_skip.go:343-425 | quarantine lasts over a stretch, with the same entry time, exactly if every cycle keeps it |
| SkipRuns.QuarantineEndsIff | internal/controller/replication_skip.go:343-425 | a quarantine that has lasted over any stretch of cycles ends in the next exactly if that is blind, or shows no error, an annotation changed since the last one seen, and a window count back at the threshold |
| SkipRuns.QuarantineEndsOnInputs | internal/controller/replication_skip.go:343-425 | with a quarantine window within the retention, only the skips on record when the quarantine began matter to its end |
| SkipRuns.NoSqlDuring | internal/controller/replication_skip.go:126-138 | no SQL is issued and nothing recorded while a quarantine lasts |
| SkipRuns.RefusedOnce | internal/controller/replication_skip.go:396-425 | a refused value left in place never releases the quarantine and is reported once |
| SkipRuns.BlindCycleEndsQuarantine | internal/controller/replication_errors.go:349-369 | any stretch of cycles that ends in one without detection ends unquarantined, whatever the annotation and the clocks |
| SkipRecipe.Session.Exec | internal/pxc/replication.go:410-476 | one statement with its effect, applied or not, and what the caller sees |
| SkipRecipe.RestoreApplier | internal/pxc/replication.go:443-455 | after the cleanup gtid_next is AUTOMATIC or the reset was not applied, and the applier runs or both spellings of START failed |
| SkipRecipe.CommitEmpty | internal/pxc/replication.go:457-468 | executed gains the GTID exactly when COMMIT was applied |
| SkipRecipe.RunSkipNextTransaction | internal/pxc/replication.go:415-476 | on an acquired connection, for every failure pattern: how gtid_next, the applier and the executed set end, and which failure each returned error, and only it, stands for |
| SkipRecipe.SkipNextTransaction | internal/pxc/replication.go:389-417 | arguments are rejected exactly when the channel is empty or the GTID is not a literal of at most 200 legal characters; nothing is sent exactly after a rejection or a failure to open or to connect; otherwise the recipe runs and succeeds exactly if the transaction, the reset and a START do |
| SqlText.QuoteChannel | internal/pxc/replication.go:512-527 | the name between quotes, with quotes and backslashes doubled |
| SqlText.QuotedReads | internal/pxc/replication.go:512-527 | the server reads back the name (or, without backslash escapes, the name with backslashes doubled), and the literal ends where it was meant to |
| SqlText.QuotedReadsIff | internal/pxc/replication.go:512-527 | the name survives every SQL mode exactly when it has no backslash |
| SqlText.ValidGTIDLiteral | internal/pxc/replication.go:490-506 | accepts exactly the non-empty strings of at most 200 GTID characters |
| SqlText.GtidReads | internal/pxc/replication.go:430-434 | a valid GTID embedded unescaped is read back unchanged |
| Labels.ParseInvertsKeyIff | internal/controller/replication_errors.go:512-529 | the key parser inverts the key builder exactly when the first three fields hold no NUL |
| Labels.KeyInjective | internal/controller/replication_errors.go:512-514 | different policies or labels have different keys |
| Labels.MineIff | internal/controller/replication_errors.go:257-262 | the prefix test selects exactly one policy's keys |
| Labels.Tracker.Preseed | internal/controller/replication_errors.go:143-153 | inactive errnos of the whitelist, or 1062 and 1032 without one, get a gauge of 0 and no gauge of an active errno is cleared |
| Labels.Tracker.Mark | internal/controller/replication_errors.go:202-235 | the observed keys become active, and a new one is noticed exactly when it was not |
| Labels.Tracker.Sweep | internal/controller/replication_errors.go:257-274 | drops exactly this policy's unobserved keys and turns their gauges off |
| Labels.Tracker.Observe | internal/controller/replication_errors.go:113-274 | after a detecting cycle the policy's keys are those observed; a blind one changes none; an event is emitted exactly when an observed key was not active |
| Labels.GaugeOnIffObserved | internal/controller/replication_errors.go:217-274 | after a detecting cycle of a single policy a gauge is 1 exactly when its role, channel and errno were observed |
| Labels.Watch | internal/controller/replication_errors.go:143-274 | over any run of cycles an event fires exactly when some observed key was absent from the previous detecting cycle; if no gauge was on at the start, a run that ends in a detecting cycle ends with exactly the gauges of its errors on |
| Lease.LeaseTable.EnsureLeaderLeaseSchema | internal/pxc/leader_lease.go:39-82 | succeeds exactly if every step does; an existing row is untouched, and a missing one is seeded exactly if the last step is reached and applied |
| Lease.LeaseTable.AcquireOrRenew | internal/pxc/leader_lease.go:119-208 | a call is granted exactly when the caller is named, the lease is free, its own or expired by its clock, and the transaction commits; then a renewal moves only the heartbeat and a takeover raises the epoch by one; a refused call leaves the row as it was |
| Lease.HeldSince | internal/pxc/leader_lease.go:119-208 | after a call takes effect the row is never older than that write, and goes to another caller only after the term |
| Lease.Exclusion | internal/pxc/leader_lease.go:119-208 | with clocks within delta of the database's, no other caller takes over before t + ttl - delta, over any serialised interleaving |
| Lease.HeartbeatKeepsLease | internal/pxc/leader_lease.go:163-202 | a holder that calls again in time still holds the lease, is renewed exactly if its transaction is committed, and keeps the epoch |
| Lease.EpochCountsHandovers | internal/pxc/leader_lease.go:163-202 | the epoch rises by one on each change of owner and never on a renewal |
| Lease.EpochHasOneOwner | internal/pxc/leader_lease.go:163-202 | epochs never fall, and one epoch has one owner |
| Lease.CheckPeerLease | internal/switchover/lease.go:54-82 | passes exactly without a tracker, without a row, on one's own lease, or on one expired by one's clock; an unreadable lease never passes |
| Lease.PassedCheckExcludesPeer | internal/switchover/lease.go:54-82 | if the peer check passes, every other caller's last effective write is more than ttl - delta old |
| Lease.StalePeerPasses | internal/switchover/lease.go:54-82 | the check passes once every effective write of another caller, and a row of another owner from before, is more than ttl + delta old |
| Lease.AttemptIsShielded | internal/switchover/lease.go:54-82 | no peer's check passes while a holder's last write is at most ttl - delta old |
| Lease.SkewShortensTheTerm | internal/pxc/leader_lease.go:32-34 | for every ttl and every skew up to it, a takeover at the first instant after ttl - delta |
| Peers.TurnIsDisciplined | internal/controller/clusterswitchpolicy_controller.go:382-427 | with two controllers that take turns, each turn is a disciplined log on the sides its controller saw |
| Peers.TurnsKeepOneWriter | internal/switchover/engine.go:254-354 | as long as the two controllers take turns, any number of attempts by either leaves both clusters writable only through a fault in the current one, or behind its blackhole |
| Peers.OverlapMakesTwoWriters | internal/switchover/preflight.go:164-183 | two overlapping attempts in which no call fails and each preflight sees a read-only remote make both clusters writable |
| Routing.RetryConverges | internal/proxysql/manager.go:274-320 | after any number of attempts aborted at any statement, one complete prepare gives the clean table |
| Routing.PreparedRoutes | internal/proxysql/manager.go:274-320 | the write group loses exactly the old writer and gains the new one, ONLINE with 1000 connections in both groups; other rows are untouched |
| Routing.RollbackRestores | internal/proxysql/manager.go:150-160 | rolling back restores the write group's members exactly when the old writer was in it and the new one was not |
| Routing.PrepareOne | internal/proxysql/manager.go:261-320 | succeeds exactly when no call fails, and otherwise stops after some statement |
| Routing.CommitOne | internal/proxysql/manager.go:323-334 | the runtime changes exactly when LOAD was applied, so a failed SAVE is an error although it has changed |
| Routing.PrepareAll | internal/proxysql/manager.go:83-115 | prepares every instance, continuing past failures: each failed call costs the work at one position of the list and at no other |
| Routing.CommitAll | internal/proxysql/manager.go:116-147 | commits every staged instance, continuing past failures in the same way; each runtime is the staged table exactly when a LOAD of that instance was applied, and wholly the old one otherwise |
| Routing.ApplyFailoverRouting | internal/proxysql/manager.go:83-147 | succeeds exactly when no call fails, and then the new writer is in service everywhere and the old one is gone; a prepare failure leaves every runtime as it was; past that each runtime becomes the prepared table exactly where LOAD was applied, which each failed call prevents at one position of the list at most |
| Routing.RollbackRouting | internal/proxysql/manager.go:150-160 | the same with the writers' roles swapped |
| Routing.RollbackReadmits | internal/proxysql/manager.go:150-160 | a complete routing rollback puts a fenced node back ONLINE in the write group |
| Routing.MoveRow | internal/proxysql/manager.go:205-222 | the UPDATE moves a node's only row and fails on two |
| Routing.BlackholeOne | internal/proxysql/manager.go:194-241 | a complete fence on one instance leaves the unroutable row as the node's only one |
| Routing.BlackholeAll | internal/proxysql/manager.go:167-192 | fences every instance, continuing past failures: one is left out only if it lists the target twice or cost a failed call |
| Routing.Blackhole | internal/proxysql/manager.go:167-192 | succeeds exactly when a target is named, no call fails and no instance lists it twice; then the target's only row anywhere is out of service, and the other nodes' rows are as staged |
| Routing.CollidesIff | internal/proxysql/manager.go:216-222 | rows of the UPDATE collide on the primary key exactly when the node has more than one |
| Routing.UpdatedIff | internal/proxysql/manager.go:216-222 | updating row by row, without a collision, is moving the node's only row |
| Routing.TwoHostgroupsBlockTheFence | internal/proxysql/manager.go:216-222 | the rows of a node in two hostgroups collide, so the UPDATE has no outcome |
| Routing.RoutingKeepsFenceIff | internal/proxysql/manager.go:167-192 | a routing change away from a fenced node keeps the fence exactly when the blackhole group is not the write group |
| Routing.FenceSurvives | internal/proxysql/manager.go:167-241 | over any run of routing attempts a fenced node stays out of the routed groups, in staging and at runtime |
| Routing.FenceThenRoute | internal/proxysql/manager.go:83-241 | a fence that succeeded survives any list of routing changes away from its target on every instance, whatever becomes of them |
| Routing.FencePublishesStagedWriter | internal/proxysql/manager.go:113-115 | the new writer that an aborted change left staged takes writes after the next fence |
| RoutedWrites.StageView | internal/proxysql/manager.go:274-320 | aborted and complete changes stage what the abstract routing step says |
| RoutedWrites.FenceView | internal/proxysql/manager.go:205-241 | fence attempts stage what the abstract fence step says |
| RoutedWrites.LoadView | internal/proxysql/manager.go:323-334 | loading some instances moves the routes as the abstract load does |
| RoutedWrites.RouteAll | internal/proxysql/manager.go:83-147 | the two-phase change on real tables does to the routes what the routing step of the call log does |
| RoutedWrites.FenceAll | internal/proxysql/manager.go:167-192 | the fence on real tables does to the routes what the blackhole step of the call log does |
| RoutedWrites.MixedCommit | internal/proxysql/manager.go:116-147 | when every instance used to send writes to the old writer, a failed commit leaves exactly those that loaded sending to the new one and the others to the old one |
| GtidText.CountIsCardinality | internal/pxc/gtid.go:196-227 | for every legal spelling of disjoint intervals, uuids compared without case, the sum is the cardinality of the denoted set exactly when no range has space beside its dash |
| GtidText.CountIsExactIffDisjoint | internal/pxc/gtid.go:196-227 | without such spaces the sum is exact exactly when no two intervals overlap |
| GtidText.SpellingsAreOneSource | internal/pxc/gtid.go:196-227 | one range listed under two spellings of one uuid counts twice, though the set holds it once |
| GtidText.SameUuidIff | internal/pxc/gtid.go:196-227 | two spellings mean one uuid exactly when they differ in case only |
| GtidText.OtherSpelling | internal/pxc/gtid.go:196-227 | a uuid with two different legal spellings |
| GtidText.ItemsReadBack | internal/pxc/gtid.go:196-227 | what the parser adds up for any legal layout of commas, spaces and newlines |
| GtidText.SpacedDashIsLost | internal/pxc/gtid.go:210-220 | for every uuid, a spelling of five transactions that counts as none |
| GtidText.AddToken | internal/pxc/gtid.go:206-223 | one interval token's contribution in 64-bit arithmetic: one for a number, the length of a range in order, and otherwise nothing |
| GtidText.CountIsNat | internal/pxc/gtid.go:196-227 | malformed tokens and reversed ranges never make the sum negative |
| GtidText.CountGTIDTransactions | internal/pxc/gtid.go:196-227 | the wrapped sum for every text, and the number of transactions for every legal one that fits int64 |
| Counters.Status.UpdateHealthStatus | internal/controller/clusterswitchpolicy_controller.go:715-739 | each counter after each check; the two local ones sum to the unhealthy streak, and the remote one is the unreachable streak |
| Counters.LocalStreakIsTail | internal/controller/clusterswitchpolicy_controller.go:715-739 | the local streak is the longest tail of the history without a switchover or a healthy check |
| Counters.RemoteStreakIsTail | internal/controller/clusterswitchpolicy_controller.go:715-739 | the remote streak is the longest tail without a switchover or a check that reached the remote side |
| Counters.Status.SwitchoverSucceeded | internal/controller/clusterswitchpolicy_controller.go:526-533 | a success restarts the streaks and their counters |
| Counters.Status.Decide | internal/controller/decision.go:35-170 | the decision depends on the health history alone, and exactly when it is to wait out the cooldown, obey the operator, leave a silent remote, or leave a failed local side |
| Counters.DecisionIff | internal/controller/decision.go:35-170 | each of the ten decisions as an exact condition on the history, the configuration and the clock |
| Counters.LocalFailoverBounds | internal/controller/decision.go:116-157 | no local failover before the threshold's number of bad checks in a row, nor towards an unhealthy or writable remote; from twice the threshold less one on the gate is open |
| Counters.LocalFailoverBoundsAreTight | internal/controller/decision.go:116-127 | both bounds are reached |

## Left out

- Attempt.Attempted: the cancelled drain is a possible end of an attempt whenever a drain is configured; time itself is not modelled.
- Clusters.World.SetLocalReadOnly: success means not writable. The MANO and CRD-first managers report success without reading `@@read_only`; this contract is assumed of them.
- A cycle of the skip limiter may observe any number of errors, more than a replica has workers.
- The lease and the turns of `Peers.dfy` are not derived from each other. The lease is not renewed during an attempt, an attempt may outlast it, a peer's check may come before the holder's heartbeat, and a holder's own check never refuses it, so no bound on an attempt alone makes the controllers take turns.
- `Peers.dfy` counts every client and leaves out where each controller's ProxySQL instances send writes.
- Writability changes only through the engine's calls. An operator or another tool that sets `read_only` meanwhile is not modelled.
- The state of the remote's channel and its settings are fixed while a preflight reads them.
- GTIDs are not read again after the fence, so transactions committed locally between snapshot and fence may be missing on the new source. The theorem covers what was executed when the attempt began.
- Commits, replication and purging may happen between any two calls, in any amount, whatever the writability; the GTID results therefore do not depend on the fence.
- A nil progress reporter, which turns checkpoints into no-ops, and the attempt's start time and reason.
- A switchover attempt sees each ProxySQL call as one change of staging and runtime routes; the statements behind it are in `Routing.dfy`, joined in `RoutedWrites.dfy`. A ProxySQL manager with no endpoints blackholes successfully, as in the source; there are then no routed writes, and `Protocol.BothWritableOnlyBehindBlackhole` is the result that still says something.
- Reconcile cycles are atomic. Status patches that fail, stale reads of the resource and merge-patch differences are not modelled.
- Resuming a switchover after a pod restart: the program does not implement it. `handleStuckSwitchover` is left out; no claim is made that finished attempts are never abandoned.
- Gauges carry no policy identity, so the gauge results are about a single policy; keys and events are kept apart for any number of policies.
- Other channels' transactions reaching the executed set while the skip recipe runs.
- Effective defaults of the error-handling configuration (a configured retention of 0 becomes the default) are a precondition, `Config.Effective`.
- Counter wrap-around at 32 bits, second-level rounding of stored times, and `leaseTTL`.
- MySQL 8.3 tagged GTIDs, which the counter's grammar predates; uuids are in the dashed form of its grammar; text is a sequence of characters, not bytes.
- The remote-unreachable trigger may ask for a promotion that check C1 then rejects while the remote stays unreachable; the decision and the gate are each modelled, their timing against each other is not.
- Drivers, DSNs, connection pools, timeouts, TLS, HTTP, Kubernetes clients, logging, metric counters, event texts and command lines: plumbing.
