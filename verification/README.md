# Verified model of the OwnCord server core and its LiveKit parts

This project models the stateful cores of the OwnCord chat server (`Server/`) and of the LiveKit
server it ships with (`livekit-1.11.0/`), and proves what they guarantee over whole runs. Check it with
`dafny verify dfyconfig.toml` (Dafny 4.11).

| file | component |
|---|---|
| `SignalRelay.dfy` | LiveKit's signal relay: a batching and retrying sink, an unreliable stream, a reader that trims overlaps and reports gaps |
| `RingBuffer.dfy`, `WsHub.dfy` | the replay ring buffer and the WebSocket hub: registration, replacement, kick, numbered broadcast, replay |
| `Voice.dfy` | voice membership: the connection's `voiceChID` against the `voice_states` table, capacity and camera limits |
| `RateLimit.dfy`, `Login.dfy` | the sliding-window limiter with lockouts and cleanup, and the login handler built on it |
| `DataTrackStats.dfy` | loss counting over wrapping 16-bit sequence numbers |
| `MediaLoss.dfy` | the media-loss maximiser and the 32-bit register of lossy updates |
| `IceFallback.dfy` | the ICE fallback controller |
| `Migrations.dfy` | tracked schema migrations under errors and crashes |
| `AgentWorker.dfy` | the agent worker's job assignment handshake |
| `Common.dfy` | small shared definitions |

## How to read it

Each component has a value-level state, a total `Step` over its events and a `Run` over event lists.
What the environment decides (clock readings, packet fates, faults, which of several goroutines moves
next) is part of the events, so a statement about `Run(start, es)` for every `es` is a statement about
every interleaving. A critical section of a mutex is one step; where the source releases a lock
half-way, the halves are separate steps (the write loop of the relay, the fallback controller, the loss
proxy and the register it reports to, `AssignJob`). Disabled events leave the state as it is. Ghost records such as `history`, `log`,
`committed` or `permits` exist only to state what the source promises.

The classes are the source's objects in the source's form: fields, loops and updates in place. Each
method is proved equal to the step function it implements, and the lemmas are about those functions. The
table below lists the methods with loops, aliasing or intermediate states; those that are one branch and
a few assignments (such as `Worker.EndAssign` or `RateLimiter.LockOut`) are proved in the same way.

## Findings

Where the code and what one would expect of it part ways, the code was kept, the exact condition proved
and an example or family of examples given.

- `EventsSince` is documented to return nil when the position is too old. It also returns nil when nothing
  was missed, because a slice that was never appended to is nil (`ReplayIsExact`).
- A reconnecting client silently misses exactly the broadcasts between its replay snapshot and its
  registration, besides those later not addressed to it or made after its send channel was closed
  (`ReconnectMissesExactlyTheGap`, `DeliveryIsExactAndFinal`).
- A replay, on the other hand, brings broadcasts that live delivery held back from the user: exactly those
  to a channel the user's connection neither looked at nor was in voice in (`ReplayGoesBeyondDelivery`).
- A `voice_states` row outlives its connection in exactly one situation: the user registers again while
  having no registered connection and still having a row (`GhostsAppearExactly`); it happens whenever a
  client in voice is kicked and reconnects before the old read pump has cleaned up
  (`KickThenReconnectLeavesGhost`). The row then outlives that user's last connection as well
  (`GhostOutlivesItsUser`).
- A voice join that is refused because the target is full still leaves the old channel; and a user with
  such a left-over row is refused by the very channel the row fills, and keeps the row (`JoinOutcome`,
  `GhostShutsItselfOut`).
- Cleanup is invisible to a key exactly when the key's window is within the cleanup's horizon or not
  positive; every wider window has a run that shows it (`CleanupIsInvisibleExactlyWhen`).
- A late duplicate makes the loss count too low; the exact condition is `StaysExactExactlyWhen`, a family of
  examples `LateDuplicateHidesLoss`, and too high it never is (`LossIsNeverTooHigh`).
- More than one ICE change can follow a reset: with n failure handlers between their two critical
  sections at the reset there are up to n + 1, and for every n a run with n + 1
  (`FailuresChangeAtMostOnce`, `InFlightHandlersChangeAgain`).
- Loss updates can overtake each other between the proxy and the register, which then sees them in another
  order: exactly when one is taken while a different, earlier one is on its way (`OrderBreaksExactly`). Any
  two updates can be swapped like that (`UpdatesCanSwap`); updates that reach the register before the next
  one is made, in particular within a second, never are (`PromptUpdatesStayInOrder`,
  `UpdatesWithinASecondStayInOrder`).
- `AssignJob` deletes its map entry by job id, so it can delete the entry of a later call for the same
  job, which then can no longer be answered (`CallsAreOrphanedExactly`, `ReassignedCallIsOrphaned`).
- If the probes of `MigrateFS` wrongly send it into seeding, a migration may be recorded that never ran:
  exactly when the first file is new (`TruthfulExactlyWhen`, `SeedingRecordsWhatNeverRan`).
- `AssignJob` sends the assignment before it enters the job into the running map, so a job that is reported
  as ended in between stays there as running (`EndedJobsRunExactly`, `EarlyEndIsLost`).

## Model

| member | source | states |
|---|---|---|
| `SignalRelay.DeliveredIsPrefixOfAccepted` | livekit-1.11.0/pkg/routing/signal.go:191-252 | over every interleaving of writes, retries with grown batches, give-ups, loss, delay, repetition and reordering, the channel holds a prefix of the accepted messages, and exactly the first `seq` of them while the reader runs |
| `SignalRelay.PacketOutcome` | livekit-1.11.0/pkg/routing/signal.go:203-252 | what becomes of any packet in flight, by what was delivered before: decoding error, gap exactly if it starts beyond that, otherwise delivery up to its last message as far as the channel has room; refused, closed or reading on accordingly |
| `SignalRelay.CleanCloseDeliversEverything` | livekit-1.11.0/pkg/routing/signal.go:203-221 | once a close packet was handled without error, everything ever accepted was delivered and nothing more is accepted |
| `SignalRelay.NothingIsForgotten` | livekit-1.11.0/pkg/routing/signal.go:310-381 | at most one write loop exists; while the stream is open, queued messages or a pending drain imply one; its batch never exceeds the queue |
| `SignalRelay.WhatIsSentIsInFlight` | livekit-1.11.0/pkg/routing/signal.go:316-324 | in every run, a loop waiting for n messages has put exactly the n messages from the sequence number on, and its close flag, into flight |
| `SignalRelay.NothingIsSkipped` | livekit-1.11.0/pkg/routing/signal.go:310-353 | in every run without a give-up, each accepted message the sink no longer queues went out in some packet |
| `SignalRelay.LoopGoesOn` | livekit-1.11.0/pkg/routing/signal.go:310-363 | how the loop goes on after its start, a success, a failure and a give-up: one packet with everything from the new sequence number on, or the end of the loop, with the stream closed exactly by a drain or a configured failure |
| `SignalRelay.AcceptsExactly` | livekit-1.11.0/pkg/routing/signal.go:365-381 | after any run a write is accepted exactly while the stream is open and no close was asked for |
| `SignalRelay.NoFalseGap` | livekit-1.11.0/pkg/routing/signal.go:310-363 | if Send succeeds only after the reader took the batch in, no gap is ever reported, even with give-ups on a sink that closes its stream on failure |
| `SignalRelay.IdleRound` | livekit-1.11.0/pkg/routing/signal.go:365-381 | any number of messages accepted by an idle sink are all delivered after one round if the reader has everything before them, and cause a gap report if it has not |
| `SignalRelay.CloseRound` | livekit-1.11.0/pkg/routing/signal.go:282-289 | a close on an idle sink closes the reader cleanly after one round, and its acknowledgement ends the loop and closes the stream |
| `SignalRelay.StepKeepsInv` | livekit-1.11.0/pkg/routing/signal.go:310-381 | every step keeps: seq plus queue length is the history length, the queue is the history from seq, every packet is a slice of the history, close packets end it |
| `SignalRelay.CopyKeepsReader` | livekit-1.11.0/pkg/routing/signal.go:203-222 | slices of the history in any arrival order, decodable or not, with messages taken out and the channel closed at any point, leave the copy loop with a prefix of the history |
| `SignalRelay.SignalMessageSink.SendReturned` | livekit-1.11.0/pkg/routing/signal.go:324-353 | success advances by the batch, a failure retries the same base, an expired deadline skips the queue |
| `SignalRelay.SignalMessageReader.Read` | livekit-1.11.0/pkg/routing/signal.go:233-252 | the unseen part of a packet, the gap, or the decoding error; the position advances by what is returned |
| `SignalRelay.CopySignalStreamToMessageChannel` | livekit-1.11.0/pkg/routing/signal.go:191-223 | the loops over arriving packets and their messages write what the fold of single receptions writes and stop as it stops, decoding errors, a consumer and a close between any two writes included |
| `RingBuffer.EventRingBuffer.Push` | Server/ws/ringbuffer.go:29-37 | the modular array goes on holding the last `size` entries of the full history |
| `RingBuffer.EventRingBuffer.EntryAt` | Server/ws/ringbuffer.go:49-60 | the two modular index computations find the i-th of the last `size` entries |
| `RingBuffer.EventRingBuffer.EventsSince` | Server/ws/ringbuffer.go:41-67 | the loop over the modular array returns the query over the last `size` entries, nil included |
| `RingBuffer.EventRingBuffer.OldestSeq` | Server/ws/ringbuffer.go:70-78 | the number of the oldest entry still held, 0 if none |
| `RingBuffer.ReplayIsExact` | Server/ws/ringbuffer.go:41-67 | with consecutive numbers, replay is non-nil exactly when oldest <= after < newest, and then is every later broadcast in order |
| `WsHub.ReplacementIsNeverEvicted` | Server/ws/hub.go:296-321 | in every run, users have distinct connections, a stale unregister or kick leaves the client map alone, and replaced or kicked connections are closed |
| `WsHub.RemovalTakesOutExactlyOne` | Server/ws/hub.go:314-321 | after an unregister or kick exactly the other registered connections remain registered, and a kicked one is closed |
| `WsHub.LifetimesAreExact` | Server/ws/hub.go:296-321 | in every run, exactly which events register, unregister and close a connection |
| `WsHub.ClosedIsFinal` | Server/ws/client.go:176-217 | a closed send channel was closed exactly once and nothing is queued on it, or counted as dropped, ever after |
| `WsHub.BufferHoldsTheUnpumped` | Server/ws/client.go:176-188 | in every run the send buffer holds what was queued and not yet pumped, at most 256 messages |
| `WsHub.SendIsExact` | Server/ws/client.go:176-188 | in every run, a message to an open connection is queued behind the others if and only if fewer than 256 queued ones are unpumped, and counted as dropped otherwise; nothing else changes a queue |
| `WsHub.QueuedNumbersIncrease` | Server/ws/hub.go:474-494 | the broadcast numbers queued to one connection strictly increase |
| `WsHub.ReplacementKeepsVoice` | Server/ws/hub.go:296-312 | replacing a connection leaves every user's voice channel, and so the set of users in voice, unchanged |
| `WsHub.DeliveryIsExactAndFinal` | Server/ws/hub.go:474-494 | a broadcast is queued to a connection or counted as dropped by it exactly if it was registered, addressed and open at that moment, and stays so in every later state, after close, replacement, kick or unregistration too |
| `WsHub.ReconnectMissesExactlyTheGap` | Server/ws/serve.go:72-99 | replay is every broadcast from last_seq to the snapshot; a later one is missed if and only if it fell between snapshot and registration, or came after it and was not addressed to the connection or found it closed; whatever becomes of the connection |
| `WsHub.ReplayGoesBeyondDelivery` | Server/ws/serve.go:72-99 | a replay contains every broadcast after last_seq whatever its channel; one of them was held back from the user's open connection if and only if its channel is neither 0 nor that connection's focus or voice channel |
| `WsHub.StepKeepsInv` | Server/ws/hub.go:296-321 | every step keeps the hub invariant: live means registered, one close per connection, ascending numbers, and each connection accounts for exactly what was addressed to it while open |
| `WsHub.Hub.Register` | Server/ws/hub.go:296-312 | the new state of registration with replacement, aliasing of old and new object included |
| `WsHub.Hub.Deliver` | Server/ws/hub.go:474-499 | the loop over the client map sends to exactly the addressed connections, and counter, log and replay buffer stay in step |
| `WsHub.Hub.ReplayFor` | Server/ws/serve.go:72-104 | the replay offered for a last_seq, in terms of all broadcasts so far |
| `WsHub.Hub.VoiceSessionCount` | Server/ws/hub.go:398-408 | the number of users whose registered connection is in voice |
| `WsHub.CountInVoice` | Server/ws/hub.go:402-407 | the counting loop, in any order |
| `Voice.MembershipAgrees` | Server/ws/voice_join.go:64-137 | through any run of joins, failed joins, rollbacks, leaves, replacements, kicks, disconnects, webhooks and cleanups, a registered client in voice has a row for exactly that channel |
| `Voice.LimitsHold` | Server/ws/voice_join.go:77-97 | no reachable state has more rows or more cameras in a channel than its positive limits |
| `Voice.JoinOutcome` | Server/ws/voice_join.go:64-137 | a join that is not permitted, to a missing channel or the current one changes nothing; otherwise the user is in the new channel exactly when it has room and the token is issued and in none if not; the row follows, except that a refused user in no channel changes nothing |
| `Voice.ParticipantLeftOutcome` | Server/ws/livekit_webhook.go:154-189 | the webhook changes nothing for a user whose registered connection is in another channel or none, clears channel and row of one still there, and the row of one who is gone |
| `Voice.DisconnectOutcome` | Server/ws/serve.go:167-174 | the end of a replaced connection changes no membership; that of a last one removes the row exactly if the connection carried a channel |
| `Voice.CleanupOutcome` | Server/ws/hub.go:233-267 | exactly the channel's rows go and exactly their users leave voice |
| `Voice.CameraOutcome` | Server/ws/voice_controls.go:94-138 | a camera switch sets the user's row in the channel of the connection, or is refused exactly without permission, channel or room for a camera |
| `Voice.OthersUntouched` | Server/db/voice_queries.go:12-40 | no event changes the row or voice channel of a user it is not about |
| `Voice.GhostShutsItselfOut` | Server/ws/voice_join.go:77-97 | a row left behind that fills a channel of one makes every join of its own user a no-op |
| `Voice.GhostsAppearExactly` | Server/ws/hub.go:296-312 | a row without a matching voice channel appears exactly when a user without registered connection, whose row is still there, registers |
| `Voice.KickThenReconnectLeavesGhost` | Server/ws/serve.go:167-174 | kick, reconnect, late cleanup always leaves such a row |
| `Voice.GhostOutlivesItsUser` | Server/ws/serve.go:167-174 | after kick, reconnect, late cleanup and disconnect nobody of that user is connected and the row still counts as a member |
| `Voice.StaleLeaveBreaksExactly` | Server/ws/voice_leave.go:13-44 | without the rule that only the registered connection handles messages, a leave breaks the agreement exactly for a stale connection still carrying a channel while the registered one is in voice |
| `Voice.StepKeepsInv` | Server/ws/livekit_webhook.go:158-190 | every handler keeps agreement and limits, the webhook included |
| `Voice.VoiceServer.Join` | Server/ws/voice_join.go:64-137 | the handler's statements, rollback included, come to the join step |
| `Voice.VoiceServer.CleanupVoiceForChannel` | Server/ws/hub.go:233-267 | the loop over the channel's rows removes them all and clears the registered connections of their users |
| `Voice.UpsertKeepsLimits` | Server/db/voice_queries.go:12-30 | an upsert with the camera off adds at most one member and no camera |
| `Voice.CameraKeepsLimits` | Server/db/voice_queries.go:176-198 | a camera update keyed by user adds at most one camera, in the row's own channel |
| `RateLimit.AllowIsExact` | Server/auth/ratelimit.go:38-74 | after any run with one limit and window for a key, a request is permitted exactly when the latest Lockout of the key has run out and fewer than `limit` were permitted in the window ending now, since the key's last Reset |
| `RateLimit.LockedOutIsExact` | Server/auth/ratelimit.go:78-97 | after any run IsLockedOut says yes exactly until the latest Lockout of the key runs out, unless a Reset came after it |
| `RateLimit.SlidingWindowBound` | Server/auth/ratelimit.go:38-74 | every interval (t - window, t] of every such run holds at most `limit` permitted requests since the key's last Reset |
| `RateLimit.CleanupIsInvisible` | Server/auth/ratelimit.go:107-142 | every Allow and IsLockedOut answer about a key equals the one given had no Cleanup happened, if that key's windows are within the cleanups' horizons; other keys may do as they like |
| `RateLimit.CleanupForgetsExactly` | Server/auth/ratelimit.go:117-142 | a cleanup drops exactly the keys last used beyond its horizon and the lockouts that have run out |
| `RateLimit.CleanupIsInvisibleExactlyWhen` | Server/auth/ratelimit.go:107-142 | over all runs with one window for the key and one cleanup horizon, cleanups are invisible if and only if the window is within the horizon or not positive |
| `RateLimit.CleanupBeyondHorizonIsVisible` | Server/auth/ratelimit.go:117-132 | for every positive window beyond the horizon, a run in which the cleanup lets a second request through |
| `RateLimit.PruneInPlace` | Server/auth/ratelimit.go:59-66 | compacting the backing array while reading it keeps exactly the timestamps after the cutoff, in order |
| `RateLimit.RateLimiter.AllowRequest` | Server/auth/ratelimit.go:38-74 | answer and new state of Allow |
| `RateLimit.RateLimiter.Sweep` | Server/auth/ratelimit.go:117-142 | the two eviction loops remove exactly the entries without a fresh timestamp and the expired lockouts |
| `Login.AtMostTenFailures` | Server/api/auth_handler.go:295-339 | in any run of serial logins from one address, every 15-minute interval holds at most ten failed password checks since the last success |
| `Login.VerdictIsExact` | Server/api/auth_handler.go:295-339 | after any run, successes included, a login is locked out if and only if some failure less than 15 minutes ago found nine counted ones in the 15 minutes before it, failures before the last success forgotten; otherwise it passes exactly with the right credentials, and wrong ones are rejected and counted while there is room |
| `Login.StepKeepsInv` | Server/api/auth_handler.go:295-339 | every login and every other use of the limiter keeps: failures come only when the address is free, the lockout is what the latest failure calls for, the failure key holds the counted failures, none after a success |
| `Login.OtherAddressesUntouched` | Server/api/auth_handler.go:295-339 | a login changes neither key of any other address |
| `Login.HandleLogin` | Server/api/auth_handler.go:295-339 | verdict and limiter state of one login |
| `DataTrackStats.LossIsExact` | livekit-1.11.0/pkg/rtc/datatrack_stats.go:49-84 | for indices near the highest, not before the first and distinct but for repetitions of the highest, numPacketsLost is the number of indices between first and highest not received, across any number of wrap-arounds; distinct packets, late packets and frames are counted exactly |
| `DataTrackStats.StaysExactExactlyWhen` | livekit-1.11.0/pkg/rtc/datatrack_stats.go:62-78 | an arrival near the highest index keeps the loss count exact if and only if it is not behind the highest, fills a hole, or nothing is counted as lost |
| `DataTrackStats.LossIsNeverTooHigh` | livekit-1.11.0/pkg/rtc/datatrack_stats.go:49-84 | after any arrivals near the highest index, duplicates and indices before the first included, numPacketsLost is at most the number of missing indices |
| `DataTrackStats.LateDuplicateHidesLoss` | livekit-1.11.0/pkg/rtc/datatrack_stats.go:62-78 | after x, x + 2 and x again nothing counts as lost although x + 1 is missing |
| `DataTrackStats.FrozenExactlyWhen` | livekit-1.11.0/pkg/rtc/datatrack_stats.go:49-90 | statistics stay as they are under every run of arrivals if and only if they have an end time, which is what Close sets |
| `MediaLoss.EveryReportCountsOnce` | livekit-1.11.0/pkg/rtc/medialossproxy.go:58-105 | updates are the maxima of consecutive batches that with the pending reports are all reports, once each and in order; updates are over a second apart |
| `MediaLoss.UpdatesExactlyWhenDue` | livekit-1.11.0/pkg/rtc/medialossproxy.go:82-105 | an update is made exactly when reports are pending and the last one is over a second old; it is their maximum, and goes on its way exactly if someone listens |
| `MediaLoss.UnlistenIsFinal` | livekit-1.11.0/pkg/rtc/transportmanager.go:660-664 | once the callback is removed all further updates go unheard |
| `MediaLoss.ClearForgets` | livekit-1.11.0/pkg/rtc/transportmanager.go:638-643 | a reset leaves nothing of what the register has taken |
| `MediaLoss.RegisterCountsLossyUpdates` | livekit-1.11.0/pkg/rtc/transportmanager.go:935-958 | the 32-bit register's popcount is the number of lossy ones among the last 32 updates it took since its last clear; every update made is taken once, on its way, or unheard |
| `MediaLoss.OrderBreaksExactly` | livekit-1.11.0/pkg/rtc/medialossproxy.go:82-105 | in every run, a step upsets the order in which the register sees the updates if and only if it takes one while a different, earlier one is on its way |
| `MediaLoss.PromptUpdatesStayInOrder` | livekit-1.11.0/pkg/rtc/medialossproxy.go:82-105 | if no update is made while another is on its way, updates taken, on their way and unheard are the updates made, in order |
| `MediaLoss.UpdatesWithinASecondStayInOrder` | livekit-1.11.0/pkg/rtc/medialossproxy.go:82-105 | as updates are over a second apart, the same holds if every update reaches the register within a second |
| `MediaLoss.UpdatesCanSwap` | livekit-1.11.0/pkg/rtc/medialossproxy.go:82-105 | for any two losses and any two moments over a second apart, a run in which the register takes the second update first |
| `MediaLoss.FiresExactlyWhenUnstable` | livekit-1.11.0/pkg/rtc/transportmanager.go:935-958 | the unstable signal fires exactly when a lossy update arrives under favourable conditions and makes at least 20 of the last 32, and the register starts afresh |
| `MediaLoss.HighestIsMaximum` | livekit-1.11.0/pkg/rtc/medialossproxy.go:60-65 | the folded value is the maximum of the reports |
| `MediaLoss.MediaLossProxy.Record` | livekit-1.11.0/pkg/rtc/medialossproxy.go:58-66 | the loop folds all reports into maximum and validity |
| `IceFallback.FailuresChangeAtMostOnce` | livekit-1.11.0/pkg/rtc/transportmanager.go:736-844 | between explicit resets failures change the configuration at most once, plus once per handler in flight at the reset |
| `IceFallback.InFlightHandlersChangeAgain` | livekit-1.11.0/pkg/rtc/transportmanager.go:824-843 | for every n, a run with n handlers in flight at a reset and n + 1 changes after it, so the bound is attained |
| `IceFallback.DecisionTable` | livekit-1.11.0/pkg/rtc/transportmanager.go:736-844 | in every run, exactly when a failure decides on TCP, on TLS and on lifting the preference, by connection type, preference, TCP and TURN support; the tests before that by the resets, changes and counted failures of the run; over TURN never |
| `IceFallback.ResetStartsAfresh` | livekit-1.11.0/pkg/rtc/transportmanager.go:638-660 | an explicit reset puts its configuration in force and forgets failures and decisions |
| `IceFallback.SecondFailureWithinAMinute` | livekit-1.11.0/pkg/rtc/transportmanager.go:804-817 | a failure that is not short-lived does so only within a minute of an earlier counted failure |
| `IceFallback.AppliedChangeIsInForce` | livekit-1.11.0/pkg/rtc/transportmanager.go:819-844 | in every run with no handler in flight at the last reset, the configuration is the one of the reset until the decided handler is applied, and then what a failure chose for that configuration, always a different preference |
| `Migrations.AppliedExactlyOnce` | Server/db/migrate.go:131-203 | from an empty database with honest table probes, over any calls cut short by errors or crashes, the migrations that took effect are exactly those recorded and none took effect twice, even if isApplied wrongly answers false |
| `Migrations.SuccessfulCallIsComplete` | Server/db/migrate.go:161-202 | a successful call leaves every file recorded and commits exactly the outstanding files, in order |
| `Migrations.LoopOutcome` | Server/db/migrate.go:161-202 | a call stops at the first file that does not pass and succeeds exactly if there is none; it commits the files outstanding before, in order and none left out, and the failing one only if its commit landed all the same |
| `Migrations.SeedOutcome` | Server/db/migrate.go:113-120 | seeding records the names up to the first that is recorded already or the cut, commits nothing, and succeeds exactly if it gets through |
| `Migrations.SmoothFilesSucceed` | Server/db/migrate.go:161-202 | without faults the loop succeeds |
| `Migrations.TruthfulExactlyWhen` | Server/db/migrate.go:131-159 | whatever the probes say and wherever the call is cut short, records stay true to effects if and only if the call does not record a new first file in seeding |
| `Migrations.SeedingRecordsWhatNeverRan` | Server/db/migrate.go:113-120 | whenever it does, that file is recorded and has not taken effect |
| `Migrations.Database.MigrateFS` | Server/db/migrate.go:131-203 | outcome and new database of one call |
| `Migrations.Database.SeedExisting` | Server/db/migrate.go:113-120 | the seeding loop records names until a conflict |
| `AgentWorker.SendNeverBlocks` | livekit-1.11.0/pkg/agent/worker.go:481-496 | in every interleaving each channel in the availability map is empty, so the send under the lock never blocks, and no channel is sent to twice |
| `AgentWorker.RunningJobsWereAccepted` | livekit-1.11.0/pkg/agent/worker.go:510-538 | only accepted jobs are ever running, none in an ended status |
| `AgentWorker.EndedJobsRunExactly` | livekit-1.11.0/pkg/agent/worker.go:401-410 | a job its worker reported as ended comes to be kept as running if and only if it is entered into the running map after the report |
| `AgentWorker.EarlyEndIsLost` | livekit-1.11.0/pkg/agent/worker.go:401-410 | every accepted job that ends before it is entered is kept as running |
| `AgentWorker.AnsweredAssignment` | livekit-1.11.0/pkg/agent/worker.go:329-414 | an answered assignment ends with the job running exactly if the worker is available, does not terminate it and the token is built, with the running jobs unchanged otherwise, and with the map as before |
| `AgentWorker.UnansweredAssignment` | livekit-1.11.0/pkg/agent/worker.go:329-416 | an assignment whose response comes too late or never leaves running jobs and map as before |
| `AgentWorker.CallMovesExactly` | livekit-1.11.0/pkg/agent/worker.go:329-416 | exactly how each event moves each call and where a response goes |
| `AgentWorker.ListingChangesExactly` | livekit-1.11.0/pkg/agent/worker.go:329-347 | exactly when a call is listed for a job |
| `AgentWorker.RunningChangesExactly` | livekit-1.11.0/pkg/agent/worker.go:510-538 | exactly when a job is running and in what status |
| `AgentWorker.CallsAreOrphanedExactly` | livekit-1.11.0/pkg/agent/worker.go:343-347 | a waiting call is cut off from its response exactly when another call for the same job runs its deferred delete |
| `AgentWorker.ReassignedCallIsOrphaned` | livekit-1.11.0/pkg/agent/worker.go:343-347 | a run in which that happens |
| `AgentWorker.Worker.HandleAvailability` | livekit-1.11.0/pkg/agent/worker.go:481-496 | sends to the listed call and unlists it, keeping the invariant |

## Left out

- Overflow of 64-bit counters: the relay's and the hub's sequence numbers are unbounded here.
- The back-off interval and deadline of the relay's write loop: each Send simply comes back with success, an error before or an error after the deadline, in any order.
- The transport manager is in two modules: `resetTransportConfigureLocked` is `ResetTo` in `IceFallback.dfy` and the `Clear` event in `MediaLoss.dfy`, and an unstable signal is any short-lived `Failure`.
- Text of broadcast messages: `wrapWithSeq` splices the number into JSON, here a broadcast carries its number as a field.
- Gaps inside a hub step: `registerNow`, `kickClient` and `deliverBroadcast` are one step each; connections are named by ids instead of pointers.
- `sweepStaleClients`: it kicks some clients, and every choice of kicks is a run already.
- `GracefulStop`, the queues in front of the hub loop and the drop of broadcasts when that queue is full.
- Database failures in the voice handlers and the background retry of `leaveVoiceChannelWithRetry`: a late retry deletes the user's row whatever channel it is then in.
- Interleaving inside a voice handler: each handler is one step, and only the registered connection of a user handles messages (what happens otherwise is `StaleLeaveBreaksExactly`).
- Columns of `voice_states` besides channel and camera, and channel deletion through the admin API.
- Login handlers running concurrently for one address.
- LiveKit's float test of round-trip times: it enters as one boolean.
- The seeding path in the exactly-once statement: it is not transactional, and only `TruthfulExactlyWhen` speaks about it.
- Job fields other than id and status, and the token construction of `AssignJob`.
- HTTP routing, JSON, permissions, TLS, configuration, storage, telemetry, SDP and media forwarding: plumbing over libraries, or correct by reading one function.
