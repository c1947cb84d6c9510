# otel-magnify, modelled and proved

This project models the parts of otel-magnify whose correctness depends on the
interplay of many steps, and proves what they promise, for every input, every
run and every interleaving.

**The OpAMP token-session protocol.** `TokenManager` gives every critical
section of `tokenConnections` in closed form; `TokenConnections` is the object
with its maps and loops, proved equal to those forms. `TokenProtocol` is the
protocol as a state machine: sessions with their gates, leases and atomic
counts, removal goroutines, disables, expiry timers with generations, callbacks
and the stop with its WaitGroups. `TokenInvariant` and `TokenSteps` hold its
inductive invariant, `TokenTheorems` what follows for every run and
`TokenAnswers` what each call answers.

**The OpAMP server.** `ServerProtocol` puts any number of goroutines on top:
messages with their two-section admission, nested sends, auto-push with forked
leases, HTTP responses that retain a lease, close callbacks, disconnects, the
batches of a disable and of the stop, UID ownership and the live registry.
`ServerInvariant`, `ServerSteps`, `ServerEvents` and `ServerCleanup` hold its
invariant; `ServerTheorems` states ownership, release, disable and shutdown over
whole runs, `ServerAnswers` which messages, sends and pushes go through;
`ServerProgress` shows that no reachable state is a deadlock.
`Registry` and `Grace` with `GraceController` model the instance registry and
the grace timers, `GraceRuns` which of their callbacks run.

**The audit outbox and the token store.** `Outbox` models claims, sink calls,
acknowledgements and reschedules by several dispatchers, with and without a
shared clock, and `OutboxRetry` when an event is tried again. `TokenStore` models token creation, revocation and use as
transactions whose commit may be unknown.

**Rollouts.** `Canary` models the canary record and its handlers with stale
snapshots, `CanaryAnswers` what a report, a poll and a handler make of it,
`CanarySelection` the choice of targets.

**Texts and trees.** `Rebind` models the placeholder lexer and `RebindTokens`
what it makes of a query; `TreeDiff` and `ConfigDiff` the semantic configuration
difference and `ConfigRisk` what makes it risky; `Migration`, `MigrationAnswers`
and `Validator` the vendor converters and the structure check their drafts must
pass; `Version` and `VersionTexts` semantic version comparison.

Objects that the program updates in place are classes whose methods are proved
against a function of the old value; the theorems are about those functions.
In a protocol module one step is one critical section, one operation on a lock,
counter or channel, or one move of a goroutine between two of those. Where the
program ranges over a Go map the model takes the keys in any order.

Some of the theorems say that a branch is dead or that a property fails, and when:

- the second ownership check of an admission can never fail, and the losing
  branch of `expireToken` is never reached (`ServerTheorems.AdmissionRecheckHolds`,
  `TokenSteps.CurrentTimerIsNotDisabled`);
- a UID bound to the empty workload cannot be unbound (`Registry.EmptyWorkloadSticks`, with
  the exact condition in `Registry.UnbindKeeps`);
- an aborted canary can be promoted by a handler that checked it before the abort
  (`Canary.AbortIsNotFinal`, with the exact conditions in `Canary.AbortedStays` for one
  step and `Canary.EndIsFinalIff` for whole runs);
- without a shared clock a rescheduled event can be claimed before its next attempt was
  due (`OutboxRetry.SkewedClaimIff`, exactly while it is not delivered);
- a canary selected by labels is never valid (`CanarySelection.LabelSelectorIsNeverValid`);
- a digit right after a placeholder becomes part of its number (`Rebind.DigitJoinsNumber`,
  with the exact condition in `Rebind.EraseBack`);
- two components that both hold an infinite number, a number that is not a number or a
  map with a key that is not a string are never reported, however different they are
  (`ConfigDiff.InfiniteHidesChange`, with the exact condition in `ConfigDiff.HiddenIff`);
- a component can be reported as modified without any changed field
  (`ConfigDiff.NullKeyModifies`, with the exact condition in `ConfigDiff.ModifiedWithoutFieldsIff`);
- the preview of a Fluent Bit filter can depend on the order in which a map is iterated
  (`Migration.KeysCollide`, with the exact condition in `Migration.OneOutcomeIff`);
- numeric prerelease identifiers beyond 64 bits compare as text
  (`Version.LargeNumbersCompareAsText`, with the exact condition in
  `Version.NumbersCompareAsNumbers`).

Assumptions taken from the program's surroundings: a session is made afresh for
every accepted request and connected once; workload identifiers are not empty
and UIDs are 32 hexadecimal digits; claim tokens are never reused; calls to the
store, to a transport and to a sink return; a value has a JSON text exactly when
it holds no infinite number, no NaN and no map with a key that is not a string,
and two such texts are equal exactly when the values are equal but for numbers
that are written the same.
The promises about overlapping sink calls and about every later claim of a
rescheduled event, and only those, assume a shared clock.

## Model

| member | source | states |
|---|---|---|
| `TokenConnections.TokenConnections.constructor` | internal/opamp/token_connections.go:158-182 | a new manager is empty and satisfies the manager invariant |
| `TokenConnections.TokenConnections.EarliestExpiry` | internal/opamp/token_connections.go:517-528 | the loop over a token's sessions finds the minimum of their expiries, or none when no session expires |
| `TokenConnections.TokenConnections.ScheduleExpiryLocked` | internal/opamp/token_connections.go:517-556 | stops, keeps or replaces the token's timer so that it stands for the earliest expiry, with a new generation whenever it is replaced; nothing else changes |
| `TokenConnections.TokenConnections.RegisterRemoveLocked` | internal/opamp/token_connections.go:459-479 | a removal is created once per session, indexed by token and counted in removeWG |
| `TokenConnections.TokenConnections.RegisterAllLocked` | internal/opamp/token_connections.go:351-357 | the registering loop adds exactly the given sessions to the removals, keeps the index exact, counts the created ones and reports them as owned |
| `TokenConnections.TokenConnections.DetachSessionLocked` | internal/opamp/token_connections.go:508-515 | the session leaves the flat map and its bucket, and an emptied bucket disappears |
| `TokenConnections.TokenConnections.BeginDisableLocked` | internal/opamp/token_connections.go:401-436 | the first call tombstones the token: captured and owned sessions, removals, timer and indexes are those of the closed form; later calls change nothing |
| `TokenConnections.TokenConnections.Track` | internal/opamp/token_connections.go:184-221 | accepts a session exactly when it has a token, nothing is stopped, the token is not disabled, the expiry is absent or ahead, and the session is not tracked yet; an expired one disables its token; the new value is the closed form; the manager invariant is kept unless and only unless a session that is still being removed is accepted |
| `TokenConnections.TokenConnections.Acquire` | internal/opamp/token_connections.go:223-262 | grants exactly when nothing is stopped, the token is not disabled, the session is tracked and its expiry is absent or ahead; lapses exactly when the same holds and the expiry has come; denies otherwise; only a lapse changes the state, by a disable |
| `TokenConnections.TokenConnections.Remove` | internal/opamp/token_connections.go:264-285 | moves a tracked session to the removals and reschedules its token; does nothing after a stop, twice, or for an unknown session |
| `TokenConnections.TokenConnections.FinishRemove` | internal/opamp/token_connections.go:486-495 | deletes the removal from the flat map and its bucket |
| `TokenConnections.TokenConnections.ExpireToken` | internal/opamp/token_connections.go:568-591 | disables exactly when the callback is current and due; then the token was not disabled before; a superseded callback changes nothing |
| `TokenConnections.TokenConnections.BeginStop` | internal/opamp/token_connections.go:336-380 | the first call takes every session down, stops every timer and records active, owned, removal and disable sets; later calls change nothing |
| `TokenConnections.TokenConnections.StopRuntimeTimers` | internal/opamp/token_connections.go:365-367 | the loop stops exactly the runtime timers of the current entries |
| `TokenConnections.TimedTokenIsTracked` | internal/opamp/token_connections.go:585-590 | a token with a timer is not disabled, so the loser branch of expireToken is never taken |
| `TokenConnections.GroupedUnique` | internal/opamp/token_connections.go:145-148 | an index by token is determined by its flat map |
| `TokenManager.AdmitOk` | internal/opamp/token_connections.go:210-218 | tracking keeps the maps exact regroupings without empty buckets and every timer at its token's earliest expiry |
| `TokenManager.RemoveSessionOk` | internal/opamp/token_connections.go:264-285 | removing keeps the same |
| `TokenManager.BeginDisableOk` | internal/opamp/token_connections.go:401-436 | disabling keeps the same |
| `TokenManager.FinishRemoveOk` | internal/opamp/token_connections.go:486-495 | finishing a removal keeps the same |
| `TokenManager.BeginStopOk` | internal/opamp/token_connections.go:336-380 | stopping keeps the same and leaves no timer armed |
| `TokenSteps.StepKeeps` | internal/opamp/token_connections.go:184-599 | every critical section, gate operation, timer and goroutine step keeps the protocol invariant; phases only advance, tombstones and stops are never taken back, and a session without readers never gets one again |
| `TokenSteps.CurrentTimerIsNotDisabled` | internal/opamp/token_connections.go:585-590 | the same fact as an invariant of the protocol: a current timer's token has no disable state |
| `TokenTheorems.RunInv` | internal/opamp/token_connections.go:184-599 | the invariant holds in every state of every run, for any interleaving |
| `TokenTheorems.RunEvolves` | internal/opamp/token_connections.go:459-497 | along every run each session only moves from tracked to removing to gone |
| `TokenTheorems.DisableIsFinal` | internal/opamp/token_connections.go:309-325 | once Disable may have returned, as winner, as loser or during a stop, no session of the token has a reader, none can be acquired or forked, in every later state |
| `TokenTheorems.TrackedHasNoWriter` | internal/opamp/token_connections.go:594-599 | a tracked session has no writer holding or waiting on its gate |
| `TokenTheorems.GrantsOnlyWithoutWriter` | internal/opamp/token_connections.go:256-260 | the read lock that Acquire takes under the mutex cannot block, and no expired session is granted |
| `TokenTheorems.ForksOnlyWithoutWriter` | internal/opamp/token_connections.go:91-107 | the same for Fork |
| `TokenTheorems.ZeroCountIsQuiet` | internal/opamp/server.go:1033-1040 | an untracked session whose atomic count reads zero has no reader and never gets one |
| `TokenTheorems.NoAddAfterStop` | internal/opamp/token_connections.go:382-399 | after beginStop no step increments expiryWG or removeWG |
| `TokenTheorems.StoppedIsQuiescent` | internal/opamp/token_connections.go:382-399 | when the stop is done there is no reader, removal goroutine, disable, entered callback or armed timer, and nothing can be acquired |
| `TokenTheorems.StopIsFinal` | internal/opamp/token_connections.go:327-334 | that stays so in every later state |
| `TokenTheorems.TimerIsEarliestExpiry` | internal/opamp/token_connections.go:517-556 | a token has a timer exactly when a tracked session of it expires; its deadline is the minimum of those expiries; it is armed or its callback is on its way |
| `TokenTheorems.ExpireIsExact` | internal/opamp/token_connections.go:558-592 | a superseded callback changes nothing but its own accounting; a callback disables its token only when a tracked session of it has expired |
| `Registry.InstanceRegistry.constructor` | internal/opamp/registry.go:37-42 | a new registry is empty and exact |
| `Registry.InstanceRegistry.BindInstance` | internal/opamp/registry.go:51-74 | binds the UID, and no other, to the workload, moving it from another one; the stored instance has that UID, the time of the message and the time it was first connected at; reports whether the UID was new |
| `Registry.InstanceRegistry.UpdateInstance` | internal/opamp/registry.go:78-92 | changes exactly the stored instance of a known UID |
| `Registry.InstanceRegistry.UnbindInstance` | internal/opamp/registry.go:96-109 | removes the UID and returns its workload; a UID bound to the empty workload stays bound |
| `Registry.InstanceRegistry.Count` | internal/opamp/registry.go:120-124 | counts the live instances of a workload |
| `Registry.InstanceRegistry.AggregatedStatus` | internal/opamp/registry.go:141-154 | disconnected, degraded or connected exactly as the live instances say |
| `Registry.BindKeeps` | internal/opamp/registry.go:51-74 | binding keeps the two maps exact regroupings of each other without empty buckets, and touches no other UID |
| `Registry.UnbindKeeps` | internal/opamp/registry.go:96-109 | unbinding keeps the same; it removes the UID if and only if it was not bound to the empty workload |
| `Registry.EmptyWorkloadSticks` | internal/opamp/registry.go:99-102 | a UID bound to the empty workload stays bound |
| `Registry.BindThenUnbind` | internal/opamp/registry.go:51-109 | unbinding right after a first binding restores the registry |
| `Registry.BucketIsRegrouping` | internal/opamp/registry.go:30-34 | a workload's bucket holds exactly the UIDs bound to it |
| `Grace.StepKeeps` | internal/opamp/grace.go:45-118 | under every race of fire, replace, cancel and stop the wait count equals the number of unfinished entries |
| `Grace.FinishedIsFinal` | internal/opamp/grace.go:30-32 | an entry finishes at most once |
| `Grace.RunsOnlyCurrent` | internal/opamp/grace.go:61-73 | a callback runs its function only as the current entry of its key, before a stop, and takes the entry out |
| `Grace.DoneIsQuiet` | internal/opamp/grace.go:96-118 | once the stop is done no callback is in flight and none can start |
| `Grace.NoAddAfterStop` | internal/opamp/grace.go:96-118 | the WaitGroup is not incremented once its Wait may have begun |
| `GraceControllers.GraceController.constructor` | internal/opamp/grace.go:35-40 | a new controller is empty |
| `GraceControllers.GraceController.Schedule` | internal/opamp/grace.go:45-75 | replaces the key's entry by a new armed one and keeps the invariant; nothing happens after a stop |
| `GraceControllers.GraceController.Cancel` | internal/opamp/grace.go:78-87 | the key's entry leaves the map, and is finished exactly when its timer could still be stopped |
| `GraceControllers.GraceController.Enter` | internal/opamp/grace.go:62-70 | the callback's section: it goes on exactly when nothing is stopped and its key still has this entry, otherwise it finishes |
| `GraceControllers.GraceController.BeginStop` | internal/opamp/grace.go:96-118 | the loop retires every entry, finishing exactly those whose timers could still be stopped |
| `ServerTheorems.StepKeeps` | internal/opamp/server.go:248-1082 | every step of every goroutine of the server keeps the server invariant |
| `ServerTheorems.CoreSimulates` | internal/opamp/server.go:552-662 | every server step is a step of the token-session protocol or leaves it alone |
| `ServerTheorems.RunInv` | internal/opamp/server.go:248-1082 | the server invariant holds in every state of every run, for any number of goroutines |
| `ServerTheorems.BoundHasSoleOwner` | internal/opamp/server.go:606-651 | every bound UID is owned in conns by exactly one session, which is admitted and not yet cleaned up |
| `ServerTheorems.AdmissionRecheckHolds` | internal/opamp/server.go:639-650 | the second section of processSessionMessage admits exactly when the store call succeeded: its session is not admitted before, and its ownership re-check cannot fail |
| `ServerTheorems.OnlyTheOwnerLetsGo` | internal/opamp/server.go:1057-1082 | a UID loses its owner or its binding only in its owner's own release section, and the owner then has no reader: a late close never unbinds a newer owner |
| `ServerTheorems.ReleasedAtMostOnce` | internal/opamp/server.go:1048-1055 | a session is released at most once, whichever of close, disconnect, send error, disable and stop come first |
| `ServerTheorems.DisableIsFinal` | internal/opamp/server.go:1009-1012 | once Disable may have returned, in every later state no session of the token owns a UID, is bound, holds a lease, handles a message or is sent to |
| `ServerTheorems.LeaseHolderNeverWaitsForReaders` | internal/opamp/server.go:1033-1046 | a goroutine that holds a lease waits for a drain only when that session has no reader and its drain can be reported at once |
| `ServerTheorems.StopRankGrows` | internal/opamp/server.go:432-463 | a stop is never taken back, and the operations WaitGroup is never incremented once it has begun |
| `ServerTheorems.StopIsFinal` | internal/opamp/server.go:422-463 | once the server's stop is done, in every later state there is no operation, reader, removal, disable, expiry or grace callback, owned or bound UID, or retained response |
| `ServerEvents.CheckKeeps` | internal/opamp/server.go:552-637 | the terminal test and the claim of a UID keep the invariant in all seven branches; which message takes which branch is stated by `ServerAnswers.CheckAnswers` |
| `ServerEvents.SendLoadKeeps` | internal/opamp/server.go:1033-1046 | cleaning up in place after the count read zero never waits for a reader; otherwise a goroutine of its own does it |
| `ServerCleanup.ReleaseNames` | internal/opamp/server.go:1057-1082 | the release section frees the session's UID in conns, session and registry, and touches no other |
| `ServerCleanup.CleanUpKeeps` | internal/opamp/server.go:1014-1055 | close, disconnect and batch cleanup keep the invariant at every program point |
| `ServerProgress.RunLive` | internal/opamp/server.go:1014-1055 | every held gate or once guard belongs to a goroutine that will leave it, and every removal that is not complete has somebody who will complete it, in every run |
| `ServerProgress.DisableMoves` | internal/opamp/token_connections.go:438-457 | a disable that has not finished can go on, or somebody it waits for can, or a retained HTTP response is awaited |
| `ServerProgress.TokenStopMoves` | internal/opamp/token_connections.go:382-399 | so can the manager's stop at each of its waits |
| `ServerProgress.ServerStopMoves` | internal/opamp/server.go:442-463 | so can the server's stop at each of its waits |
| `ServerProgress.NoDeadlock` | internal/opamp/server.go:422-463 | no reachable state is a deadlock: while a goroutine, removal, disable, expiry or grace callback or stop is unfinished some step of the server changes something, or somebody waits to write to, drain or close the gate of a session with a retained HTTP response, and its connection can close |
| `ServerProgress.WriterMoves` | internal/opamp/server.go:267-286 | a goroutine that wants to write goes on, or whoever holds the sendGate of its session does, or that is a retained response |
| `ServerProgress.RefusedSendRepeats` | internal/opamp/server.go:248-258 | a send that is refused while a message is handled leaves the server where it was, so its own steps need not come to an end |
| `Outbox.ComputeBackoff` | internal/audit/outbox_dispatcher.go:154-166 | the doubling loop gives 2^(n-1) seconds capped at a minute, one second up to the first attempt |
| `Outbox.OutboxTable.Claim` | internal/store/audit_outbox.go:15-66 | claims a row that no other transaction locked, is not delivered, is due, and has no claim or one whose lease ended: the first such row by next attempt, occurrence and id; nothing when every unlocked row misses one of these; an ended lease is an error; the row gets the token, the lease and one attempt more, and no other row changes |
| `Outbox.OutboxTable.MarkDelivered` | internal/store/audit_outbox.go:69-86 | delivers exactly the undelivered row whose claim is this token with a lease past the completion, and such a row is never due again |
| `Outbox.OutboxTable.Reschedule` | internal/store/audit_outbox.go:89-112 | reschedules exactly the undelivered row whose claim is this token with a lease past the completion, and gives the claim up; a next attempt before the completion is an error |
| `Outbox.StepKeeps` | internal/audit/outbox_dispatcher.go:61-152 | every step of any number of dispatchers keeps the outbox invariant |
| `Outbox.OnlyNewestClaimActs` | internal/store/audit_outbox.go:73-107 | a row changes only by a claim, which becomes its newest, or by a delivery or reschedule of its newest claim, whatever the clocks say |
| `Outbox.AttemptsCountClaims` | internal/store/audit_outbox.go:41-45 | the attempt count is the number of claims |
| `Outbox.DeliveredIsFinal` | internal/store/audit_outbox.go:73-81 | delivered is absorbing |
| `Outbox.DeliveredWasSunk` | internal/audit/outbox_dispatcher.go:110-152 | a delivered event was accepted by the sink in an earlier step under the newest claim on it |
| `Outbox.OverlapMeansOverrun` | internal/audit/outbox_dispatcher.go:78-113 | under a shared clock two sink calls for one event are in progress together only when one has outlived its lease |
| `Outbox.NoOverlap` | internal/audit/outbox_dispatcher.go:78-113 | when sink calls return by their deadline no two calls for one event overlap |
| `Outbox.OverlapIff` | internal/audit/outbox_dispatcher.go:78-113 | a sink call that does not return can be overlapped, from any reachable state, if and only if its event is not delivered or another dispatcher is past its last reading of the clock |
| `Outbox.OverrunIsOverlapped` | internal/audit/outbox_dispatcher.go:106-113 | without that assumption an overlap is reachable: a call that ignores its deadline is overlapped after thirty seconds |
| `TokenStore.Tokens.Create` | internal/store/opamp_tokens.go:19-66 | inserts the token and its event together, or neither, and reports invalid input, conflicts and unknown commits |
| `TokenStore.Tokens.Revoke` | internal/store/opamp_tokens.go:69-128 | revokes an active token and enqueues its event together, or neither; an already revoked token is left as it is |
| `TokenStore.Tokens.MarkUsed` | internal/store/opamp_tokens.go:234-276 | refuses revoked and expired tokens and records activity at most once per window |
| `TokenStore.Tokens.Validate` | internal/store/opamp_tokens.go:197-231 | gives the principal exactly for a known token with the same digest that is neither revoked nor expired, and reports a stored digest of the wrong length exactly when there is one |
| `TokenStore.EventsStay` | internal/store/audit_outbox.go:114-126 | an event id is inserted once: along every run an enqueued event is never overwritten or lost |
| `TokenStore.DigestsStay` | internal/store/opamp_tokens.go:213-214 | digests that are created with the right length keep it, so validation never finds a damaged one |
| `TokenStore.AlwaysAudited` | internal/store/opamp_tokens.go:19-128 | in every reachable store each token has exactly one create event, and exactly one revoke event if and only if it is revoked, with the mutation's time and actor |
| `TokenStore.UnknownIsBothOrNeither` | internal/store/opamp_tokens.go:62-64 | an unknown commit leaves both the row and the event or neither |
| `TokenStore.RevokedForGood` | internal/store/opamp_tokens.go:105-128 | a revoked token never changes again and is never live again; later revokes change nothing |
| `TokenStore.ActivityWindow` | internal/store/opamp_tokens.go:262-270 | a use of a token that is not revoked and not expired is recorded exactly when thirty seconds have passed since the last record, and changes nothing else |
| `Rebind.Rebind` | internal/store/db.go:162-238 | the lookahead loop equals the reference that lexes one character at a time |
| `Rebind.BindAt` | internal/store/db.go:228-233 | at every position the k-th question mark in code becomes $k and every other byte is copied |
| `Rebind.BindTwice` | internal/store/db.go:162-238 | applying rebind twice is applying it once |
| `Rebind.BindLeavesNone` | internal/store/db.go:162-238 | the result lexes as the query does and holds no placeholder |
| `Rebind.EraseBack` | internal/store/db.go:228-231 | erasing the numbers gives back the query if and only if no placeholder and no $ in code has a digit right after it; otherwise text is lost |
| `Rebind.DigitJoinsNumber` | internal/store/db.go:228-231 | a digit after a placeholder joins its number: ?5 becomes $15 |
| `Text.DecimalIsNumeral` | internal/store/db.go:229-230 | the number that is written reads back as the placeholder's number |
| `TreeDiff.WalkDiff` | internal/oteldiff/redaction.go:17-30 | appends exactly the reported changes below the path, each once |
| `TreeDiff.ReportedIff` | internal/oteldiff/redaction.go:17-30 | a path is reported if and only if both sides are maps all along it and its ends differ and are not both maps |
| `TreeDiff.PatchReaches` | internal/oteldiff/redaction.go:11-30 | patching the base with the reported changes, in any order, gives the target up to null-valued keys |
| `TreeDiff.SilentIff` | internal/oteldiff/redaction.go:17-30 | nothing is reported if and only if the trees agree up to null-valued keys and hold no NaN |
| `TreeDiff.SelfDiff` | internal/oteldiff/redaction.go:27-29 | walkDiff on its own: a tree differs from itself if and only if it holds a NaN |
| `TreeDiff.PathsAreReported` | internal/oteldiff/redaction.go:17-30 | the reported paths are a finite set, computed along both trees |
| `ConfigDiff.Engine.constructor` | internal/oteldiff/diff.go:39 | a new engine has no entries |
| `ConfigDiff.Engine.AddRisk` | internal/oteldiff/diff.go:347-353 | keeps the ids of the items different from each other and equal to the ids seen, whatever is added in whatever order |
| `ConfigDiff.Engine.CompareComponents` | internal/oteldiff/diff.go:101-138 | lists the entry of every component that differs, once, and nothing else |
| `ConfigDiff.Engine.ComparePipelines` | internal/oteldiff/diff.go:140-190 | the same for pipelines |
| `ConfigDiff.Engine.CompareEndpoints` | internal/oteldiff/diff.go:192-230 | the same for endpoints |
| `ConfigDiff.Engine.CompareSecurity` | internal/oteldiff/diff.go:232-254 | exactly one security entry for every sensitive and one for every weakened field of a listed component |
| `ConfigDiff.Engine.DiffPipeline` | internal/oteldiff/diff.go:143-181 | a pipeline on both sides is reported exactly when some section gained or lost a reference, with the worst risk of its references, and high when it ends without exporters or receivers |
| `ConfigDiff.Engine.CollectRefs` | internal/oteldiff/pipeline_refs.go:10-52 | the references that entered or left a section, regardless of order and repetition |
| `ConfigDiff.Engine.WorstRef` | internal/oteldiff/diff.go:166-171 | the loop over the references gives their worst risk, at least low |
| `ConfigDiff.Engine.Finish` | internal/oteldiff/diff.go:256-320 | the counters tally the entries and the overall risk is the maximum over all entries and items |
| `ConfigDiff.Engine.Compare` | internal/oteldiff/diff.go:23-47 | the whole comparison: exact listing, tallied counters, overall risk the maximum, high with any security entry |
| `ConfigDiff.ChangedFields` | internal/oteldiff/redaction.go:11-30 | the changed fields of a component are those of the paths that the walk over both trees reports, redacted |
| `ConfigDiff.ModifiedWithoutFieldsIff` | internal/oteldiff/diff.go:120-128 | a component is reported as modified without a changed field if and only if its trees agree up to null-valued keys |
| `ConfigDiff.NullKeyModifies` | internal/oteldiff/diff.go:120-128 | such a component: a key that is null on one side and missing on the other |
| `ConfigDiff.UnreportedIff` | internal/oteldiff/diff.go:121-123 | a component on both sides is left out if and only if neither tree has a JSON text, or both have one and the trees are equal but for numbers that are written the same |
| `ConfigDiff.HiddenIff` | internal/oteldiff/diff.go:121-128 | the comparison hides a change that the walk reports if and only if neither tree has a JSON text and they differ up to null-valued keys or hold a NaN, or they differ only in the notation of a number |
| `ConfigDiff.InfiniteHidesChange` | internal/oteldiff/util.go:144 | two exporters with an infinite number and different endpoints: the walk reports the endpoint, the comparison reports nothing |
| `ConfigDiff.ComputeModifiedRisk` | internal/oteldiff/labels.go:99-115 | the loop over the changed fields gives high, medium or low by the worst field |
| `ConfigDiff.CountComponents` | internal/oteldiff/util.go:177-183 | the sum over the categories is the number of components |
| `ConfigDiff.CountsBalance` | internal/oteldiff/diff.go:268-306 | added minus removed equals target count minus base count, for components, pipelines and endpoints |
| `ConfigDiff.ListedLevelsAddUp` | internal/oteldiff/diff.go:334-345 | the high, medium and low counters add up to the number of entries |
| `ConfigDiff.Engine.ItemsAddNothing` | internal/oteldiff/diff.go:307-320 | the risk items never make the overall risk worse than the entries do |
| `ConfigDiff.RemovalForcesHigh` | internal/oteldiff/labels.go:75-81 | a removed exporter or pipeline makes the overall risk high |
| `ConfigDiff.SecurityForcesHigh` | internal/oteldiff/diff.go:232-254 | a security entry makes the overall risk high |
| `ConfigDiff.SelfDiffIsEmpty` | internal/oteldiff/diff.go:23-47 | a configuration compared with itself has no entry and risk none |
| `Canary.CanaryStatus.constructor` | internal/store/workload_canaries.go:166-195 | a scanned record is recounted |
| `Canary.CanaryStatus.Recount` | pkg/models/canary.go:88-110 | the counters and the repetition-free stop reasons are those of the targets |
| `Canary.CanaryStatus.CheckHealth` | internal/api/workload_canary.go:372-405 | health, heartbeat and alert checks on a snapshot; a change is reported if and only if an alert is open, a target fails its check or a running canary has a stop reason |
| `Canary.PollDecides` | internal/api/workload_canary.go:401-410 | a poll that is stored is stopped or has a stop reason, one that is not stored left the record as it was |
| `Canary.CanaryStatus.Update` | internal/store/workload_canaries.go:101-128 | gives the first target with the UID its new status; the canary is then stopped exactly when some target has failed, succeeded exactly when all are applied, and running otherwise; without such a target nothing changes |
| `Canary.CountsAddUp` | pkg/models/canary.go:88-104 | the four counters add up to the number of targets |
| `Canary.AppliedCount` | internal/store/workload_canaries.go:121-128 | the applied counter equals the number of targets exactly when every target is applied, and the failed counter is zero exactly when none failed |
| `Canary.AlwaysOk` | internal/api/workload_canary.go:372-412 | in every reachable state, stale snapshots written back or not, succeeded or promoted implies targets, all of them applied |
| `Canary.PromotionIsEarned` | internal/api/workload_canary.go:106-158 | only a snapshot that is succeeded, complete and without a stop reason is promoted |
| `Canary.PromotedOnlyByPromote` | internal/api/workload_canary.go:106-158 | the record becomes promoted only that way, or by storing a promoted snapshot |
| `Canary.AbortedStays` | internal/api/workload_canary.go:106-217 | an aborted record stays aborted if and only if the step is not a stored promotion, rollback or failed start, nor a stored poll whose result is not aborted: it read another status, or an alert was open |
| `Canary.EndIsFinalIff` | internal/api/workload_canary.go:106-217 | in every reachable state with an ended canary some run goes on to promote it if and only if a handler in flight is past the promotion checks, or is about to store a poll of a record that was active or promoted |
| `Canary.AbortIsNotFinal` | internal/api/workload_canary.go:106-181 | an aborted canary is promoted by a handler that checked it before the abort |
| `CanarySelection.Select` | internal/api/workload_canary.go:268-370 | reports no problem if and only if the selection is valid, for every strategy; otherwise the faults of the picked instances, that none was picked, or that they are not fewer than the eligible ones |
| `CanarySelection.Pick` | internal/api/workload_canary.go:279-336 | picks what the strategy names, or reports a problem exactly when it names nothing admissible, and which one |
| `CanarySelection.PickListed` | internal/api/workload_canary.go:318-333 | an unknown or repeated UID in the list is a problem, and otherwise the listed instances are picked in order |
| `CanarySelection.Lookup` | internal/api/workload_canary.go:272-275 | finds the connected instance of a UID |
| `CanarySelection.CollectEligible` | internal/api/workload_canary.go:436-444 | keeps exactly the eligible instances, in order |
| `CanarySelection.ShareInRange` | internal/api/workload_canary.go:307-310 | the rounded-up share of one to ninety-nine percent stays within 1..n and is the least integer not below it |
| `CanarySelection.ValidIsStrictSubset` | internal/api/workload_canary.go:337-369 | a valid selection is not empty, has no repeated target and is a strict subset of the eligible instances |
| `CanarySelection.LabelSelectorIsNeverValid` | internal/api/workload_canary.go:314-317 | selecting by labels is never valid, because it takes every eligible instance or none |
| `CanarySelection.PercentageIsValidIff` | internal/api/workload_canary.go:300-313 | a percentage is valid exactly when its share leaves an eligible instance out |
| `CanarySelection.Remaining` | internal/api/workload_canary.go:425-434 | a promotion pushes to exactly the eligible instances outside the targets, each once, all of them healthy, not refusing remote configuration and heard of within two minutes |
| `Migration.Conversion.constructor` | internal/migrationassistant/assistant.go:122-138 | a new draft is empty |
| `Migration.Conversion.AddResourceAttr` | internal/migrationassistant/assistant.go:222-228 | stores the trimmed value if and only if the key is safe and not secret and the value is not blank |
| `Migration.Conversion.AddAttributes` | internal/migrationassistant/assistant.go:161-172 | the loop over the labels, or over custom attributes, stores exactly the settings that can be stored |
| `Migration.SanitizedIsSafe` | internal/migrationassistant/helpers.go:74-80 | a sanitized key behind a safe prefix is always a safe key |
| `Migration.LastSettingWins` | internal/migrationassistant/assistant.go:222-228 | an attribute has the value of the last setting of its key that can be stored |
| `Migration.Conversion.AddLogReceiver` | internal/migrationassistant/assistant.go:215-220 | defines the receiver and appends it to the logs pipeline; other pipelines stay |
| `Migration.Conversion.ConvertDatadog` | internal/migrationassistant/datadog.go:11-77 | the logs pipeline has exactly the file logs in order, the traces and metrics pipelines, of otlp and statsd, exist exactly when asked for, and the attributes are those of the environment, the tags and the logs, in that order |
| `Migration.Conversion.ConvertFluentBit` | internal/migrationassistant/fluentbit.go:63-105 | the logs pipeline has exactly one numbered receiver per tail input, and the attributes are set by the static keys of the filters, section by section, the keys of one section in any order |
| `Migration.OutcomesAreOrders` | internal/migrationassistant/fluentbit.go:86-92 | the attributes that a filter can leave are exactly those that some order of its keys leaves |
| `Migration.OneOutcomeIff` | internal/migrationassistant/fluentbit.go:86-92 | every order of the keys of a filter leaves the same attributes if and only if no two of them become the same attribute with different values |
| `Migration.KeysCollide` | internal/migrationassistant/fluentbit.go:86-92 | a filter that is converted, and for which two results are possible |
| `Migration.Conversion.ConvertSplunk` | internal/migrationassistant/splunk.go:7-51 | the logs pipeline has exactly one numbered receiver per enabled monitor, the exporter is the last HEC output's and that of all pipelines, and the attributes are those of the monitors in order |
| `Migration.HecIff` | internal/migrationassistant/splunk.go:33-41 | the draft exports to HEC if and only if the source has a HEC output with an endpoint |
| `Migration.LastHecWins` | internal/migrationassistant/splunk.go:33-41 | a HEC output that no other follows gives the exporter its endpoint |
| `Migration.Conversion.SwitchToHec` | internal/migrationassistant/splunk.go:33-41 | every pipeline's exporters become splunk_hec and nothing else of it changes |
| `Migration.Conversion.ConvertNewRelic` | internal/migrationassistant/newrelic.go:9-48 | a log file and a metrics toggle give the logs and metrics pipelines, the latter of hostmetrics, and the display name and then the custom attributes give the attributes |
| `Migration.Conversion.EnsureDefaults` | internal/migrationassistant/assistant.go:174-199 | whatever was converted, the draft ends complete: no section empty, every reference defined, attributes applied; receivers stay, and the default exporter and the default traces pipeline are added only when there is none |
| `Migration.Conversion.Preview` | internal/migrationassistant/assistant.go:59-95 | every source, parse failures included, ends in a draft on which the validator's structure check reports no error; it exports to HEC when the source does, otherwise to the default endpoint; its log receivers and attributes are those of the labels and the source |
| `Migration.CompleteDraftIsValid` | internal/validator/validator.go:232-308 | a complete draft satisfies the structure check |
| `Validator.ValidateStructure` | internal/validator/validator.go:232-308 | reports every fault of the structure and nothing else; so it reports nothing if and only if the structure is right |
| `Validator.CheckRefs` | internal/validator/validator.go:280-287 | reports every undefined reference of a section with its position, once and in order, and nothing else |
| `Version.Compare` | internal/version/version.go:19-38 | gives -1 exactly when the first version comes before the second, 1 exactly when the second comes before the first, by the rules of item 11 of Semantic Versioning 2.0.0 said without the comparison; reports texts that are no versions as unknown; its subtractions stay within an int |
| `Version.ComparePrerelease` | internal/version/version.go:95-127 | gives -1 exactly when the first list comes before the second: identifiers come before none, and otherwise the first different place decides |
| `Version.ShowParses` | internal/version/version.go:40-80 | a version that is written out parses back to itself |
| `Version.SplitJoins` | internal/version/version.go:54-76 | splitting loses nothing and no part holds the separator |
| `Version.JoinSplits` | internal/version/version.go:54-76 | and joining parts without the separator loses nothing |
| `Version.PrecedenceIsTotal` | internal/version/version.go:19-38 | the comparison is total and antisymmetric and ties exactly equal numbers and identifiers |
| `Version.PrecedenceIsTransitive` | internal/version/version.go:19-38 | and it is transitive |
| `Version.LongerIsGreater` | internal/version/version.go:126 | with equal beginnings the longer identifier list is greater |
| `Version.NumbersCompareAsNumbers` | internal/version/version.go:109-124 | numeric identifiers compare as numbers if and only if one of them fits an int, or they are equally long, or the shorter one is at most the beginning of the longer one that is as long |
| `Version.LargeNumbersCompareAsText` | internal/version/version.go:129-131 | two numbers that do not: they compare as text, against item 11 of Semantic Versioning 2.0.0 |
| `Version.BuildIsIgnored` | internal/version/version.go:46-48 | build metadata does not matter |
| `Version.CompareVersions` | internal/validator/validator.go:667-689 | the validator's loop compares the three parts in order, each as Atoi leaves it: signed, cut to an int, or zero |
| `Version.ComparisonsAgree` | internal/validator/validator.go:667-689 | on plain parseable versions both comparisons agree |
| `TokenAnswers.AcquireAnswers` | internal/opamp/token_connections.go:223-262 | in every run an Acquire takes exactly one held lease, raising that count by one, when its session is in use and its expiry is absent or ahead; when the expiry has come it disables the token, counted by expiryWG, and takes none; otherwise it changes nothing |
| `TokenAnswers.ForkAnswers` | internal/opamp/token_connections.go:91-107 | in every run a Fork of a held lease takes one more lease on the same session exactly when that session is in use |
| `TokenAnswers.ReleaseAnswers` | internal/opamp/token_connections.go:81-89 | in every run a release takes exactly its own lease out, unlocking first, and lowers the count of its session by one |
| `TokenAnswers.ConnectAnswers` | internal/opamp/token_connections.go:184-221 | in every run a connection is tracked exactly when it has a token that is neither stopped nor disabled and its expiry is absent or ahead; an expired one disables its token |
| `TokenAnswers.RemoveAnswers` | internal/opamp/token_connections.go:264-285 | in every run a Remove moves a tracked session, and no other, to the removals and starts its removal; of any other session it changes nothing |
| `TokenAnswers.DisableTakesDown` | internal/opamp/token_connections.go:401-436 | a disable moves every tracked session of its token, and no other, to the removals, captures exactly what the token has tracked or removing, and stops exactly its timer |
| `TokenAnswers.DisableAnswers` | internal/opamp/token_connections.go:309-325 | in every run exactly the first Disable of a token, before a stop, takes it down and waits first for the gates of all it captured |
| `TokenAnswers.ExpireAnswers` | internal/opamp/token_connections.go:568-591 | in every run a current callback disables its token exactly when some tracked session of it has expired, and otherwise gives the token a timer of a later generation; any other callback leaves the manager as it is |
| `TokenAnswers.StopAnswers` | internal/opamp/token_connections.go:336-380 | in every run the first Stop moves everything tracked to the removals, leaves no timer, and waits for all removals and every disable that is not closed; a later one changes nothing |
| `ServerAnswers.CheckAnswers` | internal/opamp/server.go:613-637 | in every run a check of a session that is not terminal handles the message exactly when it is valid, the session is admitted and has this UID; claims the UID exactly when the message is valid, the session has none and the UID is free; makes the session terminal in every other case and only then |
| `ServerAnswers.MarkAnswers` | internal/opamp/server.go:639-650 | in every run the second section admits the session and handles its message exactly when the store call succeeded; otherwise the session becomes terminal |
| `ServerAnswers.TerminalIff` | internal/opamp/server.go:571-574 | a session becomes terminal in exactly the steps that refuse one of its messages |
| `ServerAnswers.GoodMessagesNeverEndASession` | internal/opamp/server.go:619-626 | in every run an admitted session whose messages are valid and carry its UID is never made terminal |
| `ServerAnswers.MessageAnswers` | internal/opamp/server.go:552-564 | in every run a message gets a goroutine with one lease of its own exactly when its session is in use and its expiry is absent or ahead; any other message is dropped and takes no lease |
| `ServerAnswers.SendAnswers` | internal/opamp/server.go:248-265 | in every run a send reaches the transport, under one lease of its own, exactly when the session it looked up is still in use and its expiry is absent or ahead |
| `ServerAnswers.PushAnswers` | internal/opamp/server.go:795-817 | in every run an auto-push gets a goroutine, a forked lease and the operation exactly when the session of its message is in use; otherwise the operation ends at once |
| `ServerAnswers.BeginAnswers` | internal/opamp/server.go:432-440 | in every run an operation or an auto-push begins exactly when the stop has not |
| `ServerAnswers.WriteAnswers` | internal/opamp/server.go:584-603 | in every run a write that succeeded releases its lease, one that failed releases it and takes the session down, and a retained one leaves it to the response |
| `ServerAnswers.TakingDownRemoves` | internal/opamp/server.go:1028-1040 | a goroutine that takes a session down has given its lease back before it calls Remove |
| `ServerAnswers.BindAnswers` | internal/opamp/server.go:664-690 | in every run a bind attaches the UID of the handled message, which its session owns, to the workload, and no other UID |
| `ServerAnswers.ReleaseAnswers` | internal/opamp/server.go:1057-1080 | in every run the release section of a session frees exactly the UID that it owns, its admission and its registry entry, and nothing of any other session |
| `GraceRuns.ScheduleAnswers` | internal/opamp/grace.go:45-76 | scheduling replaces whatever the key had by a fresh armed entry and touches no other key; after a stop it does nothing |
| `GraceRuns.CancelAnswers` | internal/opamp/grace.go:78-89 | cancelling takes the key's entry out and finishes it unless its callback has started; nothing else changes |
| `GraceRuns.RunsIffNotSuperseded` | internal/opamp/grace.go:45-89 | in every run the callback of a Schedule runs its function if and only if nothing rescheduled or cancelled its key and no stop began before it looked; otherwise it finishes without running |
| `OutboxRetry.BackoffDoubles` | internal/audit/outbox_dispatcher.go:154-166 | the delay is one second for one attempt and after that the smaller of sixty seconds and twice the previous one |
| `OutboxRetry.ClaimAnswers` | internal/store/audit_outbox.go:33-49 | in every run a claim takes an event that is not delivered, is due and has no claim or one whose lease ended, all at the claim's start; it counts one attempt and lasts thirty seconds |
| `OutboxRetry.AckAnswers` | internal/store/audit_outbox.go:73-81 | in every run an executed acknowledgement delivers the event exactly when its claim still holds it, and otherwise changes no row |
| `OutboxRetry.RescheduleAnswers` | internal/audit/outbox_dispatcher.go:113-123 | in every run an executed reschedule takes effect exactly when its claim still holds the event; the next attempt is then due at the completion time plus the delay of the attempt count |
| `OutboxRetry.ReadClockAnswers` | internal/audit/outbox_dispatcher.go:77-102 | in every run the sink is called exactly with more than ten seconds of lease left, for at most ten; an ended lease is dropped and a shorter one rescheduled |
| `OutboxRetry.ReadDoneAnswers` | internal/audit/outbox_dispatcher.go:111-145 | in every run a success is acknowledged and a failure rescheduled, both with the completion time |
| `OutboxRetry.NextClaimWaits` | internal/store/audit_outbox.go:35 | in every run, whatever the clocks, no claim of a rescheduled event starts before the completion time plus the delay, until it is rescheduled again |
| `OutboxRetry.LaterClaimsWait` | internal/store/audit_outbox.go:35 | in every run under a shared clock that holds of every later claim |
| `OutboxRetry.SkewedClaimIff` | internal/audit/outbox_dispatcher.go:111-115 | without a shared clock some run claims the event before any given instant if and only if it is not delivered |
| `TokenStore.LiveIff` | internal/store/opamp_tokens.go:197-231 | in every run a token is live at an instant if and only if some step created it, that instant is before its expiry, if any, and no step revoked it |
| `TokenStore.RevokedIff` | internal/store/opamp_tokens.go:105-128 | a token is revoked if and only if some step of the run revoked it |
| `TokenStore.EventsAreWellFormed` | internal/store/audit_outbox.go:128-165 | in every reachable store an event is filed under its own UUID, is one of the two kinds, is about a stored token, and its fields are short and on one line |
| `TokenStore.CreateAnswers` | internal/store/opamp_tokens.go:19-66 | a new token with a well-formed event, both unused, is stored by a committed transaction exactly when it carries no usage and no revocation |
| `RebindTokens.RebindsTokens` | internal/store/db.go:162-238 | however a query is put together from code, literals, names, remarks and comments, the question marks of its code are numbered in order and everything else is copied, unfinished last parts included |
| `RebindTokens.EveryQueryHasTokens` | internal/store/db.go:162-238 | every text is such a query |
| `ConfigRisk.OverallIff` | internal/oteldiff/diff.go:256-320 | the overall risk is high if and only if an exporter or a guard is gone, a credential or transport security changed, sampling changed strongly, a pipeline is gone or broken or lost a guard, exported data goes elsewhere or something other than a receiver left TLS; at least medium, and none, likewise |
| `ConfigRisk.EveryDifferenceIsRated` | internal/oteldiff/labels.go:75-81 | every component, pipeline and endpoint is listed exactly when it differs, and rated by the same conditions |
| `ConfigRisk.EndpointRated` | internal/oteldiff/endpoints.go:52-63 | a changed endpoint is high exactly when an OTLP exporter's host, port or scheme changed or something other than a receiver went from https to http, and medium otherwise |
| `ConfigRisk.RefsDiffer` | internal/oteldiff/pipeline_refs.go:10-52 | a section has high references exactly when a guard processor or the last exporter left, and medium ones exactly when a receiver came or left, another processor left or an exporter left others behind |
| `ConfigRisk.StrongIff` | internal/oteldiff/redaction.go:124-138 | a sampling change between finite numbers is strong exactly when the new one is at most half or at least twice the old one, or below a hundred where it was a hundred; from zero it never is |
| `ConfigRisk.ExposingIff` | internal/oteldiff/redaction.go:86-122 | a changed field is sensitive exactly when its path has one of seven words in it, and exposing when it is sensitive or switched transport security off |
| `ConfigRisk.RemovalRules` | internal/oteldiff/labels.go:82-98 | a removed component carries exactly the rule of what it was |
| `ConfigRisk.ModificationRules` | internal/oteldiff/labels.go:116-136 | a rewritten component carries exactly the rules of its changed fields |
| `ConfigRisk.PipelineRules` | internal/oteldiff/pipeline_refs.go:23-42 | a changed pipeline is called broken exactly when no exporter or no receiver is left, and carries the rule of every other exporter and guard it lost |
| `ConfigRisk.EndpointChangeRules` | internal/oteldiff/endpoints.go:64-76 | a changed endpoint carries exactly the rules of what happened to it |
| `CanaryAnswers.ReportAnswers` | internal/store/workload_canaries.go:101-128 | a report on a target of a running or succeeded canary changes that target alone, with a stop reason exactly when it failed; the canary is then stopped exactly when some target has failed, succeeded exactly when all are applied, and running otherwise; any other report changes nothing |
| `CanaryAnswers.FailureEndsIt` | internal/store/workload_canaries.go:122-123 | in every run a failure reported for a target of a running or succeeded canary stops it, and it can be promoted afterwards if and only if a handler in flight revives it |
| `CanaryAnswers.CountersCount` | pkg/models/canary.go:88-104 | each counter is the number of the targets with its status |
| `CanaryAnswers.PollAnswers` | internal/api/workload_canary.go:382-406 | a poll marks exactly the targets that are degraded or silent and changes nothing else of them; the canary is then stopped exactly when an alert is open, it was stopped, or it was running and a target has a reason |
| `CanaryAnswers.PollIsStoredIff` | internal/api/workload_canary.go:382-410 | a poll is stored exactly when an alert is open, some instance is unknown, silent or not healthy, or a running canary already has a reason |
| `CanaryAnswers.PromotableIff` | internal/api/workload_canary.go:117-128 | a promotion passes its checks exactly when the snapshot has succeeded with every target applied and none with a stop reason |
| `CanaryAnswers.WriteAnswers` | internal/api/workload_canary.go:74-215 | what a handler's last write leaves: its own snapshot under the status of its outcome; a start whose push failed marks every target with that UID, and no other |
| `CanarySelection.EligibleIff` | internal/api/workload_canary.go:446-452 | an instance may be a target exactly when it is healthy, does not refuse remote configuration and was heard of within two minutes |
| `CanarySelection.ComplaintsMean` | internal/api/workload_canary.go:346-365 | each complaint is about a selected instance with the fault it names, and no fault is passed over |
| `CanarySelection.ValidTargetsAreFit` | internal/api/workload_canary.go:337-369 | every target of a valid selection is connected, healthy, does not refuse remote configuration and was heard of within two minutes, and some other instance is all that too |
| `MigrationAnswers.SanitizeAnswers` | internal/migrationassistant/helpers.go:74-80 | a sanitized key keeps every key character in order but for underscores, has no other character, none of its underscores at an end, and is a fixed name when nothing is left |
| `MigrationAnswers.SanitizeKeepsKeys` | internal/migrationassistant/helpers.go:74-80 | a key that is already one is left as it is |
| `MigrationAnswers.SanitizeTwice` | internal/migrationassistant/helpers.go:74-80 | sanitizing twice is sanitizing once |
| `MigrationAnswers.StorableIff` | internal/migrationassistant/assistant.go:222-228 | a setting is stored exactly when its key has only key characters and at least one, the key is no secret, and its value is not blank |
| `MigrationAnswers.DatadogLogsAre` | internal/migrationassistant/datadog.go:33-44 | a log gets a receiver, numbered by its place, exactly when it is a file with a path |
| `MigrationAnswers.MatchingIsNumber` | internal/migrationassistant/splunk.go:14-32 | the numbered receivers are as many as the tail inputs with a path, or the monitors that are not switched off |
| `MigrationAnswers.FilterKeysAre` | internal/migrationassistant/fluentbit.go:83-92 | the filters whose keys become attributes are those named modify or record_modifier |
| `MigrationAnswers.HecAnswers` | internal/migrationassistant/splunk.go:33-41 | the exporter is that of the last output to an HTTP event collector with an address; a source without one keeps the exporter it had |
| `MigrationAnswers.NumberedAreDistinct` | internal/migrationassistant/splunk.go:14-32 | no two numbered receivers share a name |
| `Version.PrecedenceIffComesBefore` | internal/version/version.go:19-38 | the comparison is the precedence of the standard: the first different number decides, identifiers come before none, numbers that fit an int come by value and before other identifiers, and others come as texts, at the first different place |
| `Version.ReleaseComesAfterPrereleases` | internal/version/version.go:99-104 | with equal numbers a version without identifiers is greater than every one with identifiers |
| `Version.FirstDifferenceDecides` | internal/version/version.go:109-124 | at the first place where two identifier lists differ the order of those identifiers decides |
| `Version.TextBeforeIff` | internal/version/version.go:118-123 | texts are ordered by their first different character, and a beginning comes first |
| `VersionTexts.ParseIff` | internal/version/version.go:40-93 | a text is a version if and only if, without the spaces around it and one leading v, it is three numbers that fit an int, joined by dots, with nothing, metadata or identifiers none of which is empty after them |
| `VersionTexts.TrimTakesSpaces` | internal/version/version.go:41 | trimming takes all spaces at both ends and nothing else |

## Left out

- The server's own object: `ServerProtocol` models its maps and the session fields on values, one step per critical section, because its methods interleave; update in place is modelled by the classes `TokenConnections`, `InstanceRegistry` and `GraceController`.
- Aliasing of session pointers: a session is a value with an identity, and the runtime timers of the token manager are the set of callbacks that are still armed.
- HTTP handlers, routing, JSON decoding, authentication of requests, agent classification, fingerprints, replies and the frontend.
- `sendGate` inside one write: a write takes and leaves it within its step; between steps only a retained HTTP response holds it. Write deadlines are not modelled.
- Contents of messages, workload upserts, effective configurations and events around a binding; a message is reduced to its UID, its validity and what it does to shared state.
- The error returned by the transport's own stop after the server's stop has waited for everything else.
- Arrival of close callbacks: `ServerProgress.NoDeadlock` names the one case that waits for one, and states that it can arrive.
- ServerProgress.NoDeadlock: states that a step is enabled, not that a fair scheduler eventually takes it; a message may send any number of times while it is handled, so its steps are not bounded.
- Outbox: rescheduling delays are whole seconds and times are unbounded integers; the order of claims among dispatchers is any order, of which the query's order is one.
- TokenStore.Tokens.Validate: does not model the constant time of the comparison, because time is not part of the model.
- TokenStore: the UTC location of times, byte lengths of text outside ASCII and Unicode spaces beyond Latin-1 are not modelled.
- CanarySelection.Select: uses one reading of the clock where the program reads it for every instance, and an exact integer ceiling where it rounds a floating-point quotient.
- Canary: timestamps, audit events and the configuration pushes themselves; a push succeeds or fails.
- TreeDiff: redaction, joining of keys with dots and the final sort of the changes, which `ConfigDiff.ChangedFields` adds but for the sort; dates and binary values.
- ConfigDiff: YAML parsing, the JSON text of a value, redaction and endpoint extraction are parameters. Positions of pipeline references, titles, impacted pipelines, human summary, risk score and blast radius are not modelled.
- ConfigDiff.ComputeModifiedRisk: compares sampling ratios over the reals, because rounding is not the point.
- Migration: parsing of vendor sources, rendering and quoting of YAML, warnings, evidence and redactions; the converters take decoded settings, and any settings at all. Which keys are secret and how an endpoint is cleaned are parameters; letters outside ASCII have no case.
- Validator: component availability, environment and version rules and the final verdict over all checks; only the structure check is modelled.
- Alerts, login limiter, janitor, permissions, capability registry, approvals, reports, webhooks, git, demo agents and configuration drift would only add easy members.
