# Verified models of the Borg client's stateful protocols

Dafny models of the parts of the Borg client whose guarantees run across whole
runs, and of its algorithms with an exact specification. Every protocol is a
state machine whose steps are the code between two points where something else
may happen (a file primitive, an `await`, a Hermes command); every loop of the
source is a method proved against a specification function.

| file | what it models |
|---|---|
| `InboxReplay.dfy` | the arm-replay planner of the inbox monitor, its content-anchored cursor, the recent-line window |
| `InboxDelivery.dfy` | delivery as a state machine: appends, trims, arms, cursor writes, self-heals, stops and crashes |
| `InboxFate.dfy` | at-least-once delivery over whole runs, and exactly which entries can still be told |
| `InboxLock.dfy` | the single-holder lock: any number of monitors, interleaved at every file primitive |
| `TailStall.dfy` | the hung-tail detector over traces of ticks and deliveries |
| `CodexWake.dfy` | per-entry wakes, retry drain and heartbeat, interleaved at every `await` |
| `EnrollmentStore.dfy` | the credential store: pending, accepted, finalized, restored |
| `OriginQueue.dfy` | the in-process queue lock of one server origin |
| `HermesConfig.dfy` | the undo log over the Hermes configuration tree |
| `HermesActivation.dfy` | generations of Borg's managed state and what counts as their activation |
| `WebSocketFrame.dfy` | the frame encoder, decoder and incremental parser (sections 5.2 and 5.3 of RFC 6455) |
| `EditDistance.dfy` | the two-row edit distance and the role suggestion |
| `HookOwnership.dfy`, `HookMigration.dfy` | which hook commands are Borg's, and the migrate-and-deduplicate pass |
| `PermissionMerge.dfy` | last-match-wins permissions with globs, and Borg's merge into them |
| `Jsonc.dfy` | the comment and trailing-comma passes of the JSONC scanner |
| `Common.dfy` | `Option` and `Result` |

Throughout, digests are injective (a digest is represented by what it digests),
random identifiers are fresh values, and the clock, the file system and other
processes are steps that may happen at any point.

## Where the code does less than its documentation says

For each of these the exact condition under which the promise holds is proved,
and a concrete run in which it fails where that says more.

- An entry trimmed out of the inbox before it was printed is never told, and one
  that a self-heal skipped is as a rule never told once a cursor past it is
  stored: `TellableIff`, `StepLosesIff` and `NothingLostIffCareful` give the
  condition, `TrimCanLoseAnEntry` and `RespawnCanLoseAnEntry` the runs.
- With its cursor's line trimmed and timestamps out of order, an interrupted
  replay is not resumed exactly: `ResumesExactlyIff`.
- A trim that keeps an unread entry can still hide it from the next arm, when
  the cursor's line was repeated after it or timestamps are out of order:
  `TrimKeepsAheadIff` gives the condition.
- A fresh arm over a file whose last entry has no valid date stores a cursor
  that cannot be read back: `FreshArmCursorUsableIff`.
- The age and the nonce of a heartbeat are read in two primitives, so a holder
  that has just written its first heartbeat can be reaped:
  `TakeIsRightIff` says exactly when a take is right, `HealthyHolderIsSafe` covers
  every undisturbed decision, `TornHeartbeatReadReapsAFreshHolder` is the run.
- An empty unread answer that arrives after the retry loop gave up hides an
  entry deferred in between: `DeferralsShowIff`, `RunHonestIff`,
  `StaleAnswerHidesAnEntry`.
- A wake pushed after the queue drain saw an empty queue, and before its flag is
  cleared, has no drainer: `QueueKeepsItsDrainerIff`, `WakePushedInGapStrands`.
- A nested operation that its holder does not await overlaps the next one on the
  same origin: `NonOverlapIff`, `UnawaitedCallOverlaps`.
- A legacy cube-creation record shares record version 2 with credentials, so an
  activation beside it can never be restored: `RestoreAcceptedIff`,
  `LegacyCubeBlocksRestore`.
- Reversing the enabling of a disabled plugin reports it as left even when the
  failed command changed nothing: `Transaction.ReverseEnable`.
- A hand-started gateway restarted after the generation was recorded and before
  the configuration was written counts as activated: `AppliedEvidenceNewerIff`,
  `HandRestartMayPredateTheWrite`.
- A scalar permission becomes the glob `*`, which does not match a name with a
  line break: `MergeLeavesOthersIff`.

## Model

| member | source | states |
|---|---|---|
| InboxReplay.PlanArmReplay | src/inbox-monitor.ts:355-416 | the planner's loops compute the plan: positional or timestamp split at the cursor, first copies only, the newest `ARM_REPLAY_CAP` replayed, the others counted as omitted, everything else history |
| InboxReplay.PlanReplaysNewest | src/inbox-monitor.ts:396-410 | of the n entries ahead of a cursor exactly the newest min(n, cap) are replayed, in file order, and exactly the others counted as omitted; what is not replayed is history, and no cursor is stored yet |
| InboxReplay.FreshPlanMarksLast | src/inbox-monitor.ts:366-376 | without a cursor nothing is replayed or omitted, every line is history and the new cursor marks the last entry |
| InboxReplay.AheadIsNotPassed | src/inbox-monitor.ts:376-405 | an entry is ahead exactly when the cursor has not passed it and it is within the bound: its first copy stands after the cursor line, or, when that line is gone, its timestamp is not older |
| InboxReplay.FindCursorLine | src/inbox-monitor.ts:383-385 | the first position of the cursor's line, or none |
| InboxReplay.SelectCandidates | src/inbox-monitor.ts:396-405 | the eligible lines after the cursor that are no history, first copies in file order |
| InboxReplay.CandidatesMember | src/inbox-monitor.ts:396-405 | a line is a candidate exactly when it is after the cursor, not older than the bound and not before the cursor |
| InboxReplay.CandidatesDistinct | src/inbox-monitor.ts:396-405 | no line is replayed twice |
| InboxReplay.CandidatesInOrder | src/inbox-monitor.ts:396-405 | the candidates stand in the order of their first copies in the file |
| InboxReplay.ResumesExactlyIff | src/inbox-monitor.ts:355-452 | re-planning the same file from the cursor stored after entry k of the replay finds exactly the later entries, in order, if and only if the old cursor's line is still in the file or no eligible entry after that one is older than it |
| InboxReplay.OrderedResumesExactly | src/inbox-monitor.ts:355-452 | a file in timestamp order always resumes exactly, whether or not the cursor's line was trimmed |
| InboxReplay.InterruptedReplayResumesIff | src/inbox-monitor.ts:355-452 | an arm stopped after k of n replay entries is resumed with exactly the remaining n-k and none omitted, whatever the next arm's boundary, under the same exact condition |
| InboxReplay.FinishedReplayIsDoneIff | src/inbox-monitor.ts:429-452 | after the last replay entry the next arm replays and omits nothing, if and only if the cursor's line is in the file or no entry within the arm's bound after the last one is older than it |
| InboxReplay.TrimmedUnorderedReplayGrows | src/inbox-monitor.ts:383-394 | with the cursor line trimmed and timestamps out of order a re-plan adds an older entry |
| InboxReplay.RecentLineDeduper.RememberLine | src/inbox-monitor.ts:83-93 | `seen` and the bounded order stay in step, the order is the newest distinct lines, a repeated line changes nothing |
| InboxReplay.ArmReplayProgress.Handled | src/inbox-monitor.ts:448-451 | the stored cursor keeps the old bound while replay entries are pending and takes the arm's bound after the last |
| InboxFate.AtLeastOnce | src/inbox-monitor.ts:1252-1309 | over every run, every entry written after the first arm is emitted, counted in a notice or ahead of the stored cursor in the file, unless it left the file untold, or a self-heal skipped it and a cursor whose line stands after it was stored |
| InboxFate.ArmReplaysNewest | src/inbox-monitor.ts:355-416 | in every run an arm over a stored cursor takes the newest entries ahead of it, up to the cap, for emission, and its notice covers exactly the rest |
| InboxFate.EmittedIff | src/inbox-monitor.ts:1297-1309 | a step emits an entry exactly when the monitor takes its line from the tail, it is no recent copy, and it is still to be replayed or is no history and dated at or after the arm |
| InboxFate.AheadIff | src/inbox-monitor.ts:376-405 | an untold entry in the file is ahead of the stored cursor exactly as long as the cursor's line stands before it |
| InboxFate.TellableIff | src/inbox-monitor.ts:1252-1319 | at any point of any run, some continuation tells an untold entry if and only if a live monitor to which it is no history has printed it, will read it, will read it again after the next trim that can happen, or will take the cursor back before it; or it is in the file ahead of the stored cursor |
| InboxFate.NothingLostIffCareful | src/inbox-monitor.ts:1252-1319 | over a run no entry becomes impossible to tell, if and only if every write, trim, stored cursor, self-heal, stop and end of a monitor leaves each untold entry another chance |
| InboxFate.StepLosesIff | src/inbox-monitor.ts:1252-1319 | which single steps take an entry's last chance, and under exactly which condition |
| InboxFate.LostForever | src/inbox-monitor.ts:1252-1319 | an entry without any of these chances is never told in any continuation |
| InboxFate.RunKeepsFullInv | src/inbox-monitor.ts:1252-1319 | what is known of every untold entry holds at every step of every run |
| InboxFate.CaughtUpOwesNothing | src/inbox-monitor.ts:1297-1309 | a monitor that has worked through the file owes no entry that stayed in it and was not skipped |
| InboxDelivery.UnresolvedIsAhead | src/inbox-monitor.ts:355-416 | under the run invariant an entry not yet told is among those the next arm replays or counts |
| InboxDelivery.RunKeepsInv | src/inbox-monitor.ts:1252-1319 | the delivery invariant holds at every step of every run |
| InboxFate.TrimLosesIff | src/log-stream.ts:1660-1689 | a trim, which happens only above the threshold and keeps exactly the last lines, makes an entry impossible to tell exactly when the entry leaves the file before the live monitor, to which it is no history, has printed it |
| InboxFate.TrimCanLoseAnEntry | src/log-stream.ts:1660-1689 | whatever the caps, a run in which an entry trimmed before it is printed is never told by any continuation |
| InboxFate.RespawnLosesIff | src/inbox-monitor.ts:1394-1406 | a self-heal makes an entry impossible to tell exactly when the entry was only still to be read and the heal seeks past it; it never changes what is ahead of the cursor, so an entry never skipped before is not lost |
| InboxFate.StoreLosesIff | src/inbox-monitor.ts:1252-1256 | storing a cursor makes an entry impossible to tell exactly when only a new arm would have told it: the tail has passed it, no trim that can still happen keeps it, and no printed line stands before it |
| InboxFate.AheadEndsIff | src/inbox-monitor.ts:1315-1319 | a step ends an untold entry's being ahead of the cursor exactly when it trims the entry or stores a cursor whose line does not stand before it |
| InboxFate.RespawnCanLoseAnEntry | src/inbox-monitor.ts:1315-1319 | a run, with the owner's real caps, in which a self-heal after the stall threshold jumps over an entry and the cursor moves past it: the monitor is live, the entry is in the file, not ahead of the cursor, and never told by any continuation |
| InboxDelivery.FreshArmCursorUsableIff | src/inbox-monitor.ts:237-254 | a fresh arm's cursor can be read back exactly when the last entry is dated; otherwise the next arm replays nothing |
| InboxDelivery.TrimKeepsAheadIff | src/inbox-monitor.ts:366-394 | after a trim that keeps it, an owed entry is still found exactly when the first surviving copy of the cursor's line precedes it, or none survives and it is not older |
| TailStall.RespawnIffStalledWindow | src/inbox-monitor.ts:501-519 | with clocks that do not go back, a tick respawns exactly when it ends a window, of at least the threshold, in which every tick saw un-emitted growth over one offset |
| TailStall.RespawnHasWindow | src/inbox-monitor.ts:501-519 | no false respawn, whatever the clocks |
| TailStall.CaughtUpClearsStreak | src/inbox-monitor.ts:501-519 | a quiet, rotated or caught-up inbox and every delivery clear the streak and do not respawn |
| TailStall.Holder.OnTick | src/inbox-monitor.ts:1381-1406 | a tick respawns from the last delivered offset exactly on the verdict outside shutdown, and restarts the streak |
| InboxLock.OnlyAWedgeReapTakes | src/inbox-monitor.ts:832-879 | the only primitive of another process that removes a live monitor's pidfile is a reap decided on a stale stat and that monitor's nonce |
| InboxLock.TakeIsRightIff | src/inbox-monitor.ts:586-598 | a contender takes a live monitor's pidfile over a heartbeat that is stale and the monitor's own if and only if, since the contender took the heartbeat's age, no heartbeat was written or the last one written is the monitor's own and has become stale itself |
| InboxLock.HealthyHolderIsSafe | src/inbox-monitor.ts:586-598 | a live monitor loses its pidfile to a contender only while its heartbeat is stale and carries its nonce, if since that contender began to decide on it no heartbeat was written that this decision no longer fits, whatever happens to other decisions |
| InboxLock.RunBelievesIff | src/inbox-monitor.ts:586-598 | what a contender believes of the heartbeat of the monitor it decides on stays right throughout a run if and only if no such heartbeat is written |
| InboxLock.StepBelievesIff | src/inbox-monitor.ts:1022-1034 | the same for a single step: that monitor's own heartbeat, at a later time than the reaper saw, or any over it after the reaper read it |
| InboxLock.TornHeartbeatReadReapsAFreshHolder | src/inbox-monitor.ts:1022-1034 | a run in which a left-over age and a fresh nonce remove a healthy holder's pidfile, so the condition above is needed |
| InboxLock.ReleaseRemovesOnlyOwn | src/inbox-monitor.ts:1191-1198 | a release or hand-back removes no pidfile but the monitor's own, although it compares and unlinks in two steps |
| InboxLock.SingleHolder | src/inbox-monitor.ts:941-958 | at most one live monitor that was not reaped owns the inbox, and the pidfile names it |
| InboxLock.ReapedOnlyByTaking | src/inbox-monitor.ts:866-869 | a live monitor counts as reaped only at such a reap |
| InboxLock.ReachableInv | src/inbox-monitor.ts:832-958 | the lock invariant holds at every step of every run |
| InboxLock.StartHoldsIff | src/inbox-monitor.ts:832-958 | an undisturbed monitor comes to hold the inbox exactly when nobody changes the lock, there is no legacy artifact, and the pidfile is free, unreadable, of a dead process or of a hung holder; otherwise it goes and every file is as before |
| InboxLock.DeadHolderIsReplaced | src/inbox-monitor.ts:866-879 | a contender that has just looked at the pidfile of a dead process comes to hold the inbox by its own steps |
| InboxLock.TakeoverHolds | src/inbox-monitor.ts:845-879 | so does one that finds an unreadable pidfile, a dead process or a stale heartbeat of the holder itself |
| InboxLock.RefusedGoes | src/inbox-monitor.ts:866-879 | a contender for any other pidfile goes and leaves every file |
| InboxLock.ClaimOfFreeHolds | src/inbox-monitor.ts:832-844 | a claim of a free pidfile succeeds, and the claimant comes to hold the inbox |
| InboxLock.LegacyHandsBack | src/inbox-monitor.ts:941-958 | a legacy artifact that appears after the claim makes the claimant hand its own pidfile back |
| InboxLock.ReleaseGivesUpOwn | src/inbox-monitor.ts:1191-1208 | an undisturbed release removes the monitor's own heartbeat and pidfile and nothing of anyone else |
| CodexWake.OneInjectorAtATime | src/codex-app-wake.ts:252-262 | in every interleaving at most one path is inside the inject lock, and every turn starts inside it |
| CodexWake.OneLoopAtATime | src/codex-app-wake.ts:469-477 | at most one retry loop, queue drain and heartbeat run: each is only ever started when idle |
| CodexWake.HealthIsHonest | src/codex-app-wake.ts:213-228 | health is true only when no scoped entry whose wake was deferred or failed since the last completed turn is unread, in every run in which no empty heartbeat answer arrives while such an entry is retried by nobody; deferrals and failures are recorded when they happen, apart from what the code then schedules |
| CodexWake.EndedWakeIsHandedOn | src/codex-app-wake.ts:393-463 | a scoped wake that was found unread ends only with a completed turn, read meanwhile, delivered before, or with its entry in a running retry drain |
| CodexWake.DebtsAreHandedOn | src/codex-app-wake.ts:393-477 | every deferred or failed wake of a step is in the retry drain after that step, and the drain runs |
| CodexWake.TurnsStartOnIdleThreads | src/codex-app-wake.ts:421-649 | on all three paths a turn starts only over a thread read as idle in the same critical section |
| CodexWake.CompletedTurnSettles | src/codex-app-wake.ts:430-649 | what a completed turn leaves: its delivery time and key, no deferral, no debt, and a free lock |
| CodexWake.IdsLeaveOnlyWhen | src/codex-app-wake.ts:479-552 | an id leaves the retry drain only when it is read, when a drain turn completes, or when the loop ages out and marks the deferral |
| CodexWake.RetryEndsOnlyWhen | src/codex-app-wake.ts:479-552 | the retry loop ends only with nothing left, with a completed turn, or by giving up with the deferral marked |
| CodexWake.WakeDelivers | src/codex-app-wake.ts:361-463 | an undisturbed wake of an unread entry over an idle thread ends in a delivered turn |
| CodexWake.RetryDelivers | src/codex-app-wake.ts:479-552 | an undisturbed retry loop with unread work over an idle thread delivers it, by induction over what it still has to ask |
| CodexWake.HeartbeatDelivers | src/codex-app-wake.ts:571-649 | an undisturbed heartbeat delivers unread work over an idle thread, and clears the marker over none |
| CodexWake.HeartbeatBeginsIff | src/codex-app-wake.ts:571-596 | a heartbeat begins exactly when none runs, nothing was delivered for twenty minutes, this process owns the stream and nobody injects |
| CodexWake.UndeliveredHeartbeatDefers | src/codex-app-wake.ts:597-649 | a heartbeat that found unread work and delivers none leaves the deferral marked |
| CodexWake.DeferralsShowIff | src/codex-app-wake.ts:213-228 | every deferred unread entry shows in a live signal at every point of a run, if and only if no empty answer arrives in that way |
| CodexWake.RunHonestIff | src/codex-app-wake.ts:393-649 | under an empty answer on its way every deferred unread entry stays retried, throughout a run, if and only if the retry loop never ages out such an entry meanwhile |
| CodexWake.TimelyNeverClears | src/codex-app-wake.ts:545-552 | where it never does, no empty answer clears a marker that is needed |
| CodexWake.StaleAnswerHidesAnEntry | src/codex-app-wake.ts:571-649 | a run in which an empty answer arrives after the retry loop gave up, and health is true over an unread deferred entry |
| CodexWake.QueueKeepsItsDrainerIff | src/codex-app-wake.ts:361-391 | a queued wake has a running drainer at every point of a run, if and only if none is pushed between the drain's end and its `finally` |
| CodexWake.WakePushedInGapStrands | src/codex-app-wake.ts:361-391 | a run in which such a wake stays queued with nobody draining, and health is true |
| CodexWake.OrphanedIdsStayDegraded | src/codex-app-wake.ts:469-552 | ids left by the same gap of the retry loop keep health degraded until another wake is pushed |
| CodexWake.OrphanedIdsAreReachable | src/codex-app-wake.ts:469-477 | a run that leaves such ids |
| CodexWake.RememberDelivered | src/codex-app-wake.ts:701-710 | the delivered key is in the window and the window keeps its cap |
| EnrollmentStore.RollbackIsInverseIff | src/config.ts:817-1013 | activating and then restoring gives back exactly the original store if and only if the replaced records sat under their own keys and the store was clean for the transaction |
| EnrollmentStore.RestoreAcceptedIff | src/config.ts:444-491 | a restore is accepted exactly when every version-2 record it puts back sat under its own credential key |
| EnrollmentStore.LegacyCubeBlocksRestore | src/config.ts:857-864 | a legacy cube record of the origin makes the restore refuse |
| EnrollmentStore.FinalizeCommits | src/config.ts:945-977 | finalizing leaves the replaced store with no marker, snapshot or pending tuple |
| EnrollmentStore.StoreStaysWellFormed | src/config.ts:312-1013 | over every sequence of operations each origin has at most one credential, under its own key, and every marker's restore is accepted |
| EnrollmentStore.OtherOriginsUntouched | src/config.ts:739-1013 | no operation changes an account of another origin |
| EnrollmentStore.ConsentCoversWhatIsReplaced | src/config.ts:865-881 | over every run, from any store whose capabilities are those minted before, an activation that replaces credentials succeeds only with a token minted over exactly those credentials |
| EnrollmentStore.StartsRemembered | src/config.ts:865-881 | a store of credentials, markers and legacy records, with no pending tuple and no snapshot, is a start for which this holds |
| EnrollmentStore.PendingTupleIsStable | src/config.ts:739-814 | until this very pending tuple is answered, restored over or cleared, every later create that succeeds returns the same retry key, bearer and consent, whatever happens to other trust identities of the origin |
| EnrollmentStore.Backend.DropActive | src/config.ts:857-864 | the copy-and-delete loop separates the origin's version-2 records from all others |
| EnrollmentStore.Backend.ActivatePending | src/config.ts:817-933 | activation computes the specified store or the specified refusal, and a refusal changes nothing |
| EnrollmentStore.ActivatesIff | src/config.ts:839-885 | an activation succeeds exactly when the pending tuple is stored with this retry key and bearer, consent is given over exactly the records there are, and the generation is the staged one |
| EnrollmentStore.ActivateStores | src/config.ts:886-931 | it then holds, under the account of this origin and trust, exactly the verified bearer, client and permission, as the origin's only version-2 record; the pending tuple is gone, marker and snapshot say what was replaced, everything else is as before |
| EnrollmentStore.StoresIff | src/config.ts:312-377 | a credential is stored exactly when its account is free and the origin has none, and nothing else changes |
| EnrollmentStore.FirstCreateStores | src/config.ts:752-814 | a first create stores the request with the drawn key and bearer, exactly when the artifact fits, and a consent over exactly the present records exactly when one was asked for |
| EnrollmentStore.RepeatedCreateIff | src/config.ts:766-785 | a repeated create changes nothing and returns the stored tuple, exactly when that tuple serves the request |
| EnrollmentStore.FinalizesIff | src/config.ts:945-977 | without a marker nothing happens; otherwise exactly a marker that fits its credential is removed with its snapshot |
| EnrollmentStore.RestoresIff | src/config.ts:980-1013 | a restore is accepted exactly for the stored marker with its intact snapshot, and leaves the snapshot's records and pending tuple in place of the present ones |
| EnrollmentStore.ClearsPendingIff | src/config.ts:1075-1094 | clearing an attempt removes its tuple exactly when it is stored under that retry key |
| EnrollmentStore.ClearsCredential | src/config.ts:1254-1261 | clearing a credential removes it and its pending tuple, and nothing else |
| EnrollmentStore.ClearsTransactionIff | src/config.ts:1264-1302 | a reviewed transaction is cleared exactly when no marker is there and the stored tuple is the reviewed one |
| EnrollmentStore.Backend.RestoreAccepted | src/config.ts:980-1013 | restore computes the specified store or refusal, and a refusal changes nothing |
| OriginQueue.PerOriginQueue | src/enrollment-lock.ts:14-49 | queued operations of one origin never overlap, a waiting one may start exactly when all earlier ones of its origin are done, and the tail map holds exactly the origins with something queued or running |
| OriginQueue.FirstInFirstOut | src/enrollment-lock.ts:14-27 | when a call runs every earlier queued call of its origin has returned or thrown |
| OriginQueue.BeginIffHead | src/enrollment-lock.ts:14-27 | a waiting call may start exactly when it heads its own origin's queue; other origins do not matter |
| OriginQueue.NonOverlapIff | src/enrollment-lock.ts:14-49 | every operation on an origin, nested ones included, is the one at the head of its queue or nested under it, throughout a run, if and only if no call leaves its queue over a running nested one on that origin and every nested call is made while its origin's holder runs |
| OriginQueue.StructuredRunsNeverOverlap | src/enrollment-lock.ts:34-49 | where operations await the calls they make, two operations on an origin overlap only if both are nested under the head of its queue |
| OriginQueue.NestedRunsUnderItsHolder | src/enrollment-lock.ts:39-40 | there, a call on an origin its caller holds runs at once, under the call that holds it |
| OriginQueue.NeverBehindItsHolder | src/enrollment-lock.ts:39-40 | no call ever waits in a queue behind a call it is nested under |
| OriginQueue.UnawaitedCallOverlaps | src/enrollment-lock.ts:14-49 | a run in which a nested operation that is not awaited overlaps the next operation on the same origin |
| HermesConfig.RunOrRollBack | src/hermes-plugin-install.ts:407-558 | whatever read or command fails, having written or not, the rollback leaves nothing exactly when nothing fails in it too and the plugin is not on the disabled list once more; every recorded key and the plugin's membership in both lists are then back, and no other key changes but for the mappings around an entry that Borg created |
| HermesConfig.RunWrites | src/hermes-plugin-install.ts:458-489 | a run in which nothing fails leaves every key as its last write put it and the plugin enabled; otherwise it stops at the first failure with the write recorded and undisturbed |
| HermesConfig.LeavesSomeIff | src/hermes-plugin-install.ts:492-558 | over keys nobody else wrote, a rollback in which nothing fails leaves something exactly when the plugin is on the disabled list or two records would put it there |
| HermesConfig.Transaction.SetKey | src/hermes-plugin-install.ts:458-465 | it succeeds exactly when no read or command fails; the value before is recorded before the command may write, only that key may change, and a read that fails leaves no record and no write |
| HermesConfig.Transaction.UnsetKey | src/hermes-plugin-install.ts:467-473 | the same for a removal |
| HermesConfig.Transaction.EnablePlugin | src/hermes-plugin-install.ts:475-489 | membership in both lists is recorded before the command, and enabling never removes it |
| HermesConfig.Transaction.ReverseKey | src/hermes-plugin-install.ts:492-520 | left exactly when a read or command failed or the key holds neither Borg's value nor the one before; restored exactly when it held Borg's value and nothing failed; a key without Borg's value is not written |
| HermesConfig.Transaction.ReverseEnable | src/hermes-plugin-install.ts:536-558 | left exactly when a read or command failed or the plugin was already back on the disabled list; otherwise it is off the enabled list if Borg put it there, back on the disabled list if Borg took it off, and nothing else in both lists changes |
| HermesConfig.Transaction.Rollback | src/hermes-plugin-install.ts:492-534 | from any configuration: nothing is left exactly when nothing fails and no record is changed or blocked; then the first record of every key and of the lists is undone; only recorded keys change, and an entry that was absent before the run, if it is left empty, is removed |
| HermesConfig.MembershipBack | src/hermes-plugin-install.ts:536-558 | reversed first records mean the membership before the run, also when a list was never touched |
| HermesConfig.SetFrame | src/hermes-plugin-install.ts:458-465 | writing a key leaves every key apart from it |
| HermesConfig.UnsetFrame | src/hermes-plugin-install.ts:467-473 | removing a key leaves every key apart from it |
| HermesActivation.ActiveHasOwnEvidence | src/hermes-plugin-install.ts:1265-1375 | over every interleaving of runs, failures and crashes, a record that is not pending was confirmed for its own generation by a host step that ended after the generation was recorded and its content was known to be in place, and the gateway that runs was started no earlier than the evidence says |
| HermesActivation.EvidenceNewerIff | src/hermes-plugin-install.ts:1265-1311 | the evidence of a stopped or a Borg-restarted gateway is always newer than the record and than the content being known to be in place, for a retry and a concurrent run as well; that of a hand restart is newer if and only if the gateway process that ran at that moment is not the one that confirms |
| HermesActivation.AppliedEvidenceNewerIff | src/hermes-plugin-install.ts:1408-1533 | confirmed by the run that wrote the content, the evidence is newer than that write if and only if the gateway process that ran at the write is not the one that confirms |
| HermesActivation.NewGenerationIsPending | src/hermes-plugin-install.ts:1338-1352 | a newly written generation is pending and was never confirmed, whatever was confirmed for equal content before |
| HermesActivation.HandRestartMayPredateTheWrite | src/hermes-plugin-install.ts:1265-1311 | a run in which a gateway restarted by hand before the configuration was written counts as activated |
| HermesActivation.RunKeepsInv | src/hermes-plugin-install.ts:1338-1533 | the evidence invariant holds at every step of every run |
| HermesActivation.FailedChange | src/hermes-plugin-install.ts:1338-1533 | a change that fails and is fully reversed leaves the record and content the run found; one not fully reversed leaves its own generation on record, pending |
| HermesActivation.SettledReadIff | src/hermes-plugin-install.ts:1408-1533 | over content in place: when a run does nothing, when it draws a new generation, and when it writes the same generation again |
| HermesActivation.RetryConfirmsSameGeneration | src/hermes-plugin-install.ts:1354-1375 | a retry over a stopped gateway confirms the very generation on record, and a confirmed uninstall leaves no record |
| WebSocketFrame.RoundTrip | src/codex-app-server.ts:170-221 | decoding a frame, masked or not, of any of the three length forms, followed by any bytes, returns its payload and exact length |
| WebSocketFrame.DecodeIsStable | src/codex-app-server.ts:196-221 | later bytes never change a frame that could already be decoded |
| WebSocketFrame.PrefixDecodesToNothing | src/codex-app-server.ts:196-221 | a proper prefix of a frame decodes to nothing |
| WebSocketFrame.EncodeTextFrame | src/codex-app-server.ts:170-194 | the header forms and the masking loop build exactly the masked frame, whose bytes are those of `FrameBytes` |
| WebSocketFrame.FrameBytes | src/codex-app-server.ts:170-194 | the bytes of every frame: 0x81, the mask bit with the length or 126 or 127, the length in 0, 2 or 8 bytes with the high byte first, the mask, and each payload byte exclusive-or its mask byte |
| WebSocketFrame.AppServerClient.OnData | src/codex-app-server.ts:139-168 | the receive handler does one `Feed`: handshake, then every complete frame |
| WebSocketFrame.FeedAcrossChunks | src/codex-app-server.ts:139-168 | two chunks leave the same messages and left-over bytes as one |
| WebSocketFrame.ChunkIndependence | src/codex-app-server.ts:33-36 | any chunking of the received bytes leaves the client in the same state |
| WebSocketFrame.SessionDelivers | src/codex-app-server.ts:139-168 | a handshake, frames and an unfinished frame, in any chunking: exactly the payloads come out in order and exactly the unfinished bytes stay |
| EditDistance.DistanceIsOptimal | src/assimilate-cmd.ts:2528-2548 | the distance is the least length of a sequence of insertions, deletions and substitutions, over all of them |
| EditDistance.NoShorterEdits | src/assimilate-cmd.ts:2528-2548 | no edit sequence is shorter than the distance |
| EditDistance.ShortestEdits | src/assimilate-cmd.ts:2528-2548 | an edit sequence of exactly that length |
| EditDistance.Levenshtein | src/assimilate-cmd.ts:2528-2548 | the two-row loop returns the distance |
| EditDistance.SuggestRoleName | src/assimilate-cmd.ts:2510-2519 | the earliest candidate of least distance, only when that is at most 2, and none exactly when every candidate is farther |
| HookOwnership.CanonicalIsFixpoint | src/config-utils.ts:514-547 | a canonical command is its own canonical form, whatever the installation's paths |
| HookOwnership.ForeignOwnedIff | src/config-utils.ts:530-544 | a foreign command is owned exactly when it is an absolute path with an exact package directory right above `dist` and one of the four scripts, and then stands for the command of that script |
| HookOwnership.OwnedIff | src/config-utils.ts:514-547 | for all commands, quoted or not: a bare name stands for itself, a path of this installation for its script's command, a package path for its script's command, and nothing else is owned |
| HookMigration.OneCanonicalHookEach | src/config-utils.ts:555-604 | each owned command present before is there exactly once, as its first form rewritten; absent ones stay absent; all other hooks survive in order |
| HookMigration.OnlyEmptiedEntriesGo | src/config-utils.ts:586-601 | an entry goes only if it had hooks and all were owned; every other keeps its fields and unowned hooks, in order |
| HookMigration.SecondPassIsIdle | src/config-utils.ts:549-604 | a second pass changes nothing |
| HookMigration.SettledIffUnchanged | src/config-utils.ts:555-604 | the pass leaves the entries as they are exactly when there was nothing to rewrite and nothing to remove |
| HookMigration.FlatMigrated | src/config-utils.ts:571-592 | entry borders do not matter to what becomes of the hooks |
| HookMigration.HookEntries.MigrateAndDedup | src/config-utils.ts:555-604 | the three phases together compute the pass, and return true exactly when the entries differ |
| HookMigration.HookEntries.HasCommandHook | src/config-utils.ts:774-789 | true exactly when some form of the owned command is present |
| HookMigration.HookEntries.EnsureHook | src/config-utils.ts:424-432 | an installer's pass and its new entry, if the hook is missing, give the specified entries, and it returns true exactly when they differ from those before |
| HookMigration.EnsuredOnce | src/config-utils.ts:464-472 | after an installer's pass its command is there exactly once |
| HookMigration.HookFile.Refresh | src/config-utils.ts:664-682 | refused exactly for what inspection calls invalid, true exactly for what it calls stale, and the file then holds the refreshed content |
| HookMigration.HookFile.Inspect | src/config-utils.ts:734-756 | the inspection computes its verdict without changing the file |
| HookMigration.RefreshedIsNeverStale | src/config-utils.ts:664-756 | a refreshed file is never inspected as stale, and refreshing it again changes nothing |
| PermissionMerge.MatchesIffPieces | src/cli-tool-approval.ts:153-156 | a glob matches exactly the names that fall into one fitting piece per pattern character |
| PermissionMerge.GlobFreeMatchesItself | src/cli-tool-approval.ts:153-156 | a pattern without wildcards matches exactly itself |
| PermissionMerge.Effective | src/cli-tool-approval.ts:158-177 | the loop returns the action of the last matching rule |
| PermissionMerge.LastMatchIff | src/cli-tool-approval.ts:167-176 | that action is the one of a rule that decides with no deciding rule after it |
| PermissionMerge.MergeDecides | src/cli-tool-approval.ts:191-209 | what the merged rules decide for every name: allow where an added spelling matches, the old decision elsewhere |
| PermissionMerge.MergeAllowsRequested | src/cli-tool-approval.ts:191-209 | every requested tool is allowed under each of its spellings |
| PermissionMerge.MergeLeavesOthersIff | src/cli-tool-approval.ts:191-209 | with glob-free spellings every other name keeps its decision, exactly unless the permission is a scalar and the name has a line break |
| PermissionMerge.RepairedIsUnrestricted | src/cli-tool-approval.ts:211-225 | adopting the proposed permission leaves no restricted tool, whatever the permission and the tools |
| PermissionMerge.MergeIsIdempotent | src/cli-tool-approval.ts:191-209 | merging the same tools again gives the same rules in the same order |
| PermissionMerge.SpelledIff | src/tool-name-migration.ts:87-95 | the added names are exactly the spellings of the requested tools |
| PermissionMerge.SpellingsIff | src/tool-name-migration.ts:79-95 | a tool's second spelling is the legacy name of the first alias that renamed it, prefixed exactly when the name is |
| PermissionMerge.SpeltAloneIff | src/tool-name-migration.ts:87-95 | it has no second spelling exactly when no alias renamed it |
| PermissionMerge.RestrictiveAre | src/cli-tool-approval.ts:211-225 | the tools reported are exactly the requested ones the permission restricts |
| Jsonc.LexIff | src/config-utils.ts:91-143 | a text divides into valid tokens in at most one way, and the scanner's division is it |
| Jsonc.StripComments | src/config-utils.ts:91-145 | the flag-driven loop computes the erasure of the tokens, and refuses exactly a text with an unterminated string or block comment |
| Jsonc.CommentPassKeepsLayout | src/config-utils.ts:98-143 | length and line breaks stay where they were |
| Jsonc.CommentPassKeepsPlaces | src/config-utils.ts:98-143 | every token keeps its place; strings and plain characters are unchanged, and every character of a comment but a line break becomes a blank |
| Jsonc.CommentPassIsIdempotent | src/config-utils.ts:98-143 | the result has no comments and the pass leaves it alone |
| Jsonc.RemoveTrailingCommas | src/config-utils.ts:149-172 | the second loop removes the trailing commas of the tokens |
| Jsonc.OnlyTrailingCommasGo | src/config-utils.ts:149-172 | exactly the commas outside strings go that are followed by nothing but comments and white space up to a closing bracket |
| Jsonc.SpaceIff | src/config-utils.ts:149-172 | white space is that of the host language, by code point |
| Jsonc.CommasThroughBlanks | src/config-utils.ts:91-172 | looking past blanked comments is looking past the comments, so the two passes compose |
| Jsonc.PrepareJson | src/config-utils.ts:91-174 | what both passes together hand to the JSON decoder |
| Jsonc.PreparedIff | src/config-utils.ts:91-174 | a text is refused exactly when it has no division into valid tokens; any other gives its tokens without comments and trailing commas and without one byte order mark in front |

## Left out

- InboxFate.AtLeastOnce: an entry that left the file untold, or was skipped and passed, is an exception, because the code does lose it; a failed cursor write and the legacy positional mode are not modelled, file sizes are counted in lines, and a printed line arrives whole.
- InboxFate.TellableIff: an owner's trim may be delayed after the write that makes it due, and what a second process writes between a trim's read and its rename is not modelled.
- InboxLock.SingleHolder: speaks of monitors that were not reaped, because the wedge rule deliberately takes the pidfile from a hung one; an operator removing the mutation lock by hand is not a step.
- InboxLock.HealthyHolderIsSafe: assumes that no heartbeat is written that the deciding contender does not see, which the code does not ensure; `TakeIsRightIff` is the condition without that assumption.
- CodexWake.HealthIsHonest: assumes that no empty heartbeat answer arrives while a deferred unread entry is retried by nobody, which the code does not ensure; an answer about the retry loop's own entries is true when it arrives.
- HermesConfig.RunOrRollBack: edits by others while the writes run are not modelled; edits before the rollback are covered by `Transaction.Rollback`, which starts from any configuration, and an edit between a reversal's check and its write is a window the source accepts. A configuration command writes its key wholly or not at all; the command that enables the plugin may do either half.
- HermesActivation.ActiveHasOwnEvidence: a hand restart is newer than the sampling of the gateway only, because the code compares with that; `EvidenceNewerIff` says when it is newer than the content too. Activation records written by others are not modelled, and content that others change after a run found it in place is not followed.
- EnrollmentStore.StoreStaysWellFormed: a stored value is a credential and an activation's previous pointer is of its own origin, as all callers ensure; backends without account replacement, cube-creation operations and the lookups of pending and recoverable transactions are not modelled.
- OriginQueue.PerOriginQueue: the file lock between processes is not modelled; a call's own operation is one running phase.
- HookMigration.OneCanonicalHookEach: entries and hooks are values in one reassigned field, so the same object occurring twice in a list is not modelled; a parsed file has no such sharing.
- HookMigration.EnsuredOnce: the separate normalization of the clear-rewake entry is not modelled.
- PermissionMerge.MergeDecides: characters are Unicode scalar values rather than UTF-16 units, and rules stand in the host's enumeration order, so keys that look like array indices are already first.
- PermissionMerge.RepairedIsUnrestricted: the refusal of configurations with unmigrated tool names, before inspection, is not modelled.
- EditDistance.SuggestRoleName: case folding is a parameter.
- WebSocketFrame.RoundTrip: payloads are bytes below 2^64; text decoding, control frames and the dispatch of decoded messages to pending requests are not modelled.
- WebSocketFrame.SessionDelivers: the handshake reply is any bytes ending in the first blank line.
- Jsonc.PrepareJson: the JSON decoding of the prepared text is not modelled.
- CodexWake.RememberDelivered: the set of delivered keys is its ordered window.
- Thread choice and retry backoff arithmetic, connection probing and the operator-facing delivery state are not modelled; the stream lease is a parameter of a heartbeat tick.
- Format checks of identifiers, secrets and invitations, prompts, dry runs, backups and their pruning, plugin files on disk, session selection, and all text for people are not modelled.
- Process spawning, signals, sockets, timers and permission bits appear only as abstract steps.
