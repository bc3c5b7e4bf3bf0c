# Verified models of the agent platform's protocols and codecs

Dafny models of the concurrency protocols, the turn and stream state machines, and the list and text
algorithms of the platform, with proofs of what they keep.

`dafny verify dfyconfig.toml` checks everything. Each module is one component and needs only
`Common.dfy` and the modules it imports.

**How protocols are modelled.** A world holds the Redis keys or Postgres rows, the clock and whatever
each process remembers. Every Lua script, transaction, conditional `UPDATE`, timer and reply is one
event of `Next`; an event that is not enabled changes nothing; `Run` folds `Next` over any list of
events, so a statement about every list is a statement about every interleaving. Where the source
updates fields in place, a class does the same and each method's contract ties the new state to the
step function that the run theorems speak about.

**The parts.**

- `SessionLease`, `SessionLock`: the local watchdog and the Redis lock. Commands and replies may be
  delayed, lost or reordered without limit; a holder whose timer is less than the margin late still
  owns an unexpired key, so two processes never both act. The margin is tight: a timer exactly that
  late breaks exclusion.
- `LineDiff`: the LCS table and walk against an independent definition of common subsequences. The
  patch is a smallest edit script; above the size cutoff it is smallest exactly when the texts share
  no line.
- `TurnQueue`, `CompactionShift`: claims, stale recovery, interrupts, aborts, promotion, cancelling,
  finalizing, failing, direct generations and renumbering. At most one active agent turn, final
  statuses stay, and reloading a claimed owner returns exactly its claim. The two renumbering updates
  are followed row by row in any order.
- `StreamProjection`, `StreamContent`, `StreamDelta`, `StreamFlush`, `StreamSnapshot`: the blocks a
  streamed message projects to, what its events add up to, the delta encoder, the flush scheduler over
  it and the recoverable snapshot.
- `OriginCache`, `SessionOwner`, `AppRooms`, `CommandMigration`: generation-guarded cache, epoch
  leases, room allocation, outbound command migration.
- `JsonText`, `CanonicalJson`, `CheckpointDiffParse`, `AssistantNormalizer`, `StagedPaths`: canonical
  serialization, git output parsing, tool-call pairing, greedy batching.

**Where the code does less than its promise, or only under a condition.** Each is proved as an exact
condition, with a failing input or run, or a way to construct one, wherever the condition can fail in use.

- `apps/api/src/app-domains.ts:96-101` says a lookup that raced an invalidation never writes its
  result back. The generation key lives one day after the last invalidation, so a lookup that outlives
  it may see the counter reach the same value again (`HorizonIsExact`, `ShortLookupCanBeStale`).
- The epoch lease is exclusive only while no write brings its owner's running lease to an earlier end;
  delayed claims and renewals carry their caller's older clock and may do so (`ExclusiveIffExtends`).
- The compaction updates may hit the unique index when two rows of the tail are exactly 1000000 or
  999999 apart, and otherwise never (`OpenSlotSafeIff`).
- A JSON `null` payload in the outbound stream makes the migration throw (`DrainedIffNothingThrows`).
- Every way to write a value gives one canonical text exactly when, in each of its objects at any depth,
  the collation tells the keys apart whose order JavaScript does not fix (`SeparatedIffOneText`).
- A streamed message keeps its block identities and grows by suffixes exactly when each provider event
  takes over from the piece at its index and repeats no call of another index (`DisciplinedIffAllFit`).
- `apps/agent/src/session.ts:343-347` drains a stream so that a reset loses nothing. If no send has thrown
  before, that holds exactly when the content at the reset is what reached the receiver: the drained
  content or, if the drain's own send throws, the content of the send before (`ResetLosesNothingIff`). So
  a thrown last send loses what it carried (`UndisturbedResetIff`), and whatever arrives while the last
  send is in flight is lost even if it succeeds (`LateUpdateIsLost`).
- A snapshot departs from the latest contents exactly when a stream restarts at sequence 0, without a
  local copy, on a turn of which Redis holds another message, or when a turn is cleared before its first
  write while Redis holds the turn before it (`SnapshotRefinesPicture`, `RestartForgetsTurn`,
  `EarlyClearRevivesTurn`).
- A live room can be found by its code at every moment of a run exactly when no slow lookup deletes a
  code in use again (`ReachableIffNoLiveDrop`, `CleanupMayOrphanRoom`).
- A named call keeps a tool result exactly when its raw result has content or a non-empty result block
  comes after the call is known; earlier ones are dropped (`ResultIsKeptIff`, `EarlyResultIsDropped`).
- The final statuses of a turn are exactly completed, failed, merged and cancelled: an interrupted turn
  may still change (`FinalIffKeptForever`).

## Model

| member | source | states |
|---|---|---|
| SessionLease.EveryStepKeepsArmed | apps/agent/src/session-lease.ts:20-25 | after every step, a lease that is neither stopped nor lost has its timer armed for exactly its deadline |
| SessionLease.LossIsFinal | apps/agent/src/session-lease.ts:26-41 | once lost or stopped, nothing that arrives late revives the lease or sends another renewal |
| SessionLease.LeaseMonitor.BeginTick | apps/agent/src/session-lease.ts:26-29 | a tick renews only when live and no renewal is in flight, and gives up at the deadline |
| SessionLease.LeaseMonitor.EndTick | apps/agent/src/session-lease.ts:30-39 | the settling of a renewal in place equals the lease step whose outcome `RenewalOutcome` and `TimelyRenewalsKeepLease` state |
| SessionLease.LeaseMonitor.ArmExpiry | apps/agent/src/session-lease.ts:20-25 | arms the expiry for the deadline, or gives up if it has passed |
| SessionLease.RenewalOutcome | apps/agent/src/session-lease.ts:30-39 | an answer 1 in time moves deadline and timer to its dispatch plus ttl less the margin; any other answer, and a late one, loses the lease; a failed call changes nothing |
| SessionLease.TimelyRenewalsKeepLease | apps/agent/src/session-lease.ts:12-46 | as long as each renewal is dispatched and answered before the deadline in force, and before its own new one, the lease is never lost, and deadline and timer are those of the last dispatch |
| SessionLock.RedisLock.Execute | apps/agent/src/session-lock.ts:12-24 | the three commands take effect only for the key's live token, or on a vacant key |
| SessionLock.NextKeepsInv | apps/agent/src/session-lease.ts:12-46 | every step keeps each local deadline backed by the Redis expiry, with any number of commands and replies in flight |
| SessionLock.RunKeepsInv | apps/agent/src/session-lock.ts:33-60 | that link holds after every run of acquisitions, renewals, losses, timers and releases |
| SessionLock.HolderOwnsKey | apps/agent/src/session-lease.ts:12-46 | whoever still acts under the lock, its timer less than the margin late, owns the unexpired key |
| SessionLock.MutualExclusion | apps/agent/src/session-lock.ts:33-60 | in no run do two processes hold one session |
| SessionLock.MarginIsTight | apps/agent/src/session-lease.ts:13-14 | with a timer exactly the margin late there is a run with two holders |
| SessionLockProgress.VacantLockIsAcquired | apps/agent/src/session-lock.ts:33-49 | whoever asks for a vacant lock and hears back in time holds the session, and Redis keeps the key ttl from when it set it |
| SessionLockProgress.OccupiedLockRefuses | apps/agent/src/session-lock.ts:37-38 | whoever asks for an occupied lock is refused |
| SessionLockProgress.TimelyRoundsHoldSession | apps/agent/src/session-lock.ts:40-46 | over any number of renewals, each out and back in time, the lease stays open and the key owned, until ttl after Redis last renewed it |
| SessionLockProgress.DeadlineLosesLease | apps/agent/src/session-lease.ts:20-29 | timer and tick lose an open lease exactly from its deadline on; before it a tick sends one renewal |
| SessionLockProgress.RefusalLosesLease | apps/agent/src/session-lease.ts:30-39 | a refused renewal loses the lease, a failed one leaves it running for the next tick |
| SessionLockProgress.ReleaseFreesLock | apps/agent/src/session-lock.ts:53-58 | a released lock is vacant as soon as Redis hears of it |
| LineDiff.SimpleLineDiff | apps/api/src/checkpoint-pending-diff.ts:202-274 | the patch spells both texts with correct counts; below the cutoff it keeps an LCS and is a smallest script; above, it is smallest exactly when no line is shared |
| LineDiff.HeaderHeads | apps/api/src/checkpoint-pending-diff.ts:262-266 | the hunk header reads as the two ranges, with the old count before the new one |
| LineDiff.FillTable | apps/api/src/checkpoint-pending-diff.ts:219-231 | every cell holds the LCS length of its two suffixes and fits 32 bits |
| LineDiff.WalkTable | apps/api/src/checkpoint-pending-diff.ts:233-260 | the walk over a filled table spells both sides and keeps as many lines as the LCS |
| LineDiff.FullReplace | apps/api/src/checkpoint-pending-diff.ts:209-217 | the oversized fallback spells both sides |
| LineDiff.LinesSpellText | apps/api/src/checkpoint-pending-diff.ts:203-207 | joined, the lines give back the text up to its final newline |
| LineDiff.LcsIsUpperBound | apps/api/src/checkpoint-pending-diff.ts:226-228 | no common subsequence is longer than the table's recurrence says |
| LineDiff.LcsIsAttained | apps/api/src/checkpoint-pending-diff.ts:226-228 | some common subsequence is that long |
| LineDiff.MinimalIffKeepsLcs | apps/api/src/checkpoint-pending-diff.ts:233-274 | a script has the fewest edits exactly when it keeps an LCS |
| LineDiff.CellFits | apps/api/src/checkpoint-pending-diff.ts:210-221 | under the cutoff a cell is at most 1414 |
| TurnQueue.NextKeepsInv | apps/agent/src/batch.ts:90-231 | every mover keeps sequences unique, at most one active agent turn, and every claim reloadable |
| TurnQueue.AtMostOneActiveTurn | apps/agent/src/batch.ts:168-231 | in every interleaving at most one agent turn is running or abort_requested |
| TurnQueue.FinalStatusIsForever | apps/agent/src/persistence.ts:905-988 | a completed, failed, merged or cancelled turn never changes status again |
| TurnQueue.FinalIffKeptForever | apps/agent/src/persistence.ts:905-988 | a status is final exactly when no further steps ever change it, so an interrupted turn is not |
| TurnQueue.StaleRecoveryClears | apps/agent/src/batch.ts:172-186 | when a claim goes on, no agent turn is active any more; `FreshTurnIsBusy` states when it goes on |
| TurnQueue.FreshTurnIsBusy | apps/agent/src/batch.ts:85-186 | a claim is turned away by an active agent turn, changing nothing, if and only if that turn is of another harness or showed life within 30 minutes; otherwise the turn ends interrupted and the claim is not turned away |
| TurnQueue.IdleIsNeverBusy | apps/agent/src/batch.ts:172-186 | without an active agent turn no claim is turned away, and recovery changes nothing |
| TurnQueue.RecoveryTouchesStaleOnly | apps/agent/src/batch.ts:90-101 | recovery interrupts the stale active turn and leaves every other row as it is |
| TurnQueue.ClaimTakesQueuedInOrder | apps/agent/src/batch.ts:188-229 | a claim that is not turned away takes the oldest waiting steer, or else the first waiting follow-ups in sequence order up to the limit, and comes back empty exactly when nobody waits: a queued agent turn waits when every direct generation that is not over is behind it |
| TurnQueue.ClaimWrites | apps/agent/src/batch.ts:116-156 | what a claim writes, row by row: the owner runs with the batch, the others are merged into it, a stale turn is interrupted, nothing else changes |
| TurnQueue.BatchNamesTurns | apps/agent/src/batch.ts:103-114 | the batch lists the turns in order, the last as owner and the others as merged, with one message for each |
| TurnQueue.UpdatesFollowDiagram | apps/agent/src/persistence.ts:905-988 | aborting, undoing, finalizing, interrupting, failing and generations take exactly their own turn, exactly from the statuses their guards list, to the status named |
| TurnQueue.QueuedTurnMovesLast | apps/api/src/routes/spaces/spaces.route.ts:271-390 | a queued follow-up that is promoted becomes a steer, a cancelled one is over, and both move behind every other turn |
| TurnQueue.NewTurnsAreAdded | apps/api/src/native-turns.ts:136-174 | a new turn is queued at a free place, and a native one runs at once exactly when no turn is unfinished |
| TurnQueue.CompactionTakesSlot | apps/agent/src/persistence.ts:1092-1101 | a compaction turn takes the slot and every turn from there on moves up by one |
| TurnQueue.RecordedReloads | apps/agent/src/batch.ts:234-255 | a recorded claim passes every check of the reload and comes back in order |
| TurnQueue.ReloadOutcome | apps/agent/src/batch.ts:234-255 | a reload accepts a turn without batch, and a recorded batch exactly when it ends with its owner, names no turn twice, and its rows stand in sequence order with all but the owner merged into it |
| TurnQueue.RecoveryUndoesClaim | apps/agent/src/batch.ts:103-255 | after any later steps, loading a claimed owner returns exactly the claimed turns in order, owner last, with the claim's batch |
| TurnQueue.RunKeepsClaim | apps/agent/src/batch.ts:116-156 | no later step rewrites what a claim recorded |
| TurnQueue.ShiftIsCompactionShift | apps/agent/src/persistence.ts:1095-1100 | the queue's renumbering step is the result of the two update statements |
| TurnQueue.TurnStore.UpdateStatus | apps/agent/src/batch.ts:90-101 | a conditional update changes the row exactly when its status is listed |
| TurnQueue.TurnStore.ClaimQueuedTurns | apps/agent/src/batch.ts:116-156 | the owner runs with the batch recorded, the others end merged into it, no other row changes |
| TurnQueue.TurnStore.ClaimNextTurnBatch | apps/agent/src/batch.ts:168-231 | the transaction equals the claim step of the run model, result and table, of which `FreshTurnIsBusy`, `IdleIsNeverBusy` and `ClaimWrites` state the effect |
| CompactionShift.OpenSlotSafeIff | apps/agent/src/persistence.ts:1095-1100 | the two updates succeed in every row order exactly when no two tail rows are 1000000 or 999999 apart |
| CompactionShift.OpenSlotShifts | apps/agent/src/persistence.ts:1095-1100 | whenever both succeed the tail has moved up by one |
| CompactionShift.ShiftedOpensSlot | apps/agent/src/persistence.ts:1083-1101 | the result is unique, in the old order, unchanged before the slot, and the slot is free |
| CompactionShift.ShortTailIsSafe | apps/agent/src/persistence.ts:1083-1088 | a tail spanning fewer than 999999 is always safe |
| CompactionShift.SpanBelowMillionCanFail | apps/agent/src/persistence.ts:1083-1088 | a tail spanning exactly 999999 can fail |
| CompactionShift.UpdateMoves | apps/agent/src/persistence.ts:1083-1085 | a statement that succeeds has moved each selected row once |
| CompactionShift.UpdateSucceeds | apps/agent/src/persistence.ts:1083-1085 | a statement succeeds in every order when no selected row lands on a row's old place |
| CompactionShift.UpdateFails | apps/agent/src/persistence.ts:1083-1085 | a statement that starts with a row landing on another fails |
| CompactionShift.SequenceTable.InsertAt | apps/agent/src/persistence.ts:1095-1101 | the insertion renumbers, keeps sequences unique and fills the slot, or rolls back to the old rows |
| StreamDelta.ComputeDelta | apps/agent/src/session.ts:636-699 | the loop computes the block-by-block delta |
| StreamDelta.PatchRebuildsIffGrows | apps/agent/src/session.ts:603-699 | applying the delta rebuilds the sender's content exactly when identities stay and text and thinking only gain a suffix |
| StreamDelta.PatchIsOverlay | apps/agent/src/session.ts:636-699 | a patch acts on each identity by itself, whatever the order of blocks |
| StreamDelta.RepeatSendsNothingIff | apps/agent/src/session.ts:610-699 | content already sent is not sent again, exactly when no call has nested metadata |
| StreamDelta.SilentIffUnchanged | apps/agent/src/session.ts:610-699 | while content grows, nothing is sent exactly when nothing shown has changed and no call has nested metadata |
| StreamDelta.SharesIdentityIff | apps/agent/src/session.ts:603-608 | calls and results are told apart by id alone, other blocks by kind and index |
| StreamProjection.StepKeepsValid | apps/agent/src/stream/assistant-stream-state.ts:91-98 | every event keeps the content indexes ascending and in step with the pieces |
| StreamProjection.ProjectionIsIdentifiedIff | apps/agent/src/stream/assistant-stream-state.ts:422-482 | every projected block carries its identity, and no two share one exactly when no two pieces show one call |
| StreamProjection.GrowsIff | apps/agent/src/stream/assistant-stream-state.ts:422-482 | one projection grows into another exactly when each piece continues and each shown call stays shown |
| StreamProjection.EventIsDisciplinedIff | apps/agent/src/stream/assistant-stream-state.ts:136-221 | an event keeps identities, and text growing by suffixes, exactly when its piece takes over from what its index shows and shows no call of another index |
| StreamProjection.UpdateIsDisciplinedIff | apps/agent/src/session.ts:872-879 | such events are exactly those whose updates the flush scheduler's model admits |
| StreamProjection.DisciplinedIffAllFit | apps/agent/src/stream/assistant-stream-state.ts:136-291 | a whole message streams with stable identities and growing text exactly when every event fits |
| StreamProjection.AssistantStream.ApplyEvent | apps/agent/src/stream/assistant-stream-state.ts:136-291 | the update in place equals the step of the run model, of which the rows of `StreamContent` state the effect |
| StreamProjection.AssistantStream.ProjectContent | apps/agent/src/stream/assistant-stream-state.ts:422-482 | the loop computes the projection |
| StreamContent.DeltasAddUp | apps/agent/src/stream/assistant-stream-state.ts:145-152 | from a start on, the text of an index is its deltas in order, whatever streams at other indexes in between |
| StreamContent.EndReplacesText | apps/agent/src/stream/assistant-stream-state.ts:153-160 | from its end on, the text of an index is the content given there |
| StreamContent.ThinkingAddsUp | apps/agent/src/stream/assistant-stream-state.ts:161-174 | the same for thinking |
| StreamContent.EndReplacesThinking | apps/agent/src/stream/assistant-stream-state.ts:175-184 | the end gives content and signature, and an earlier signature stays if it gives none |
| StreamContent.PartialsAddUp | apps/agent/src/stream/assistant-stream-state.ts:185-209 | each part of a call is as the last partial message shows it that shows it at all |
| StreamContent.EndReplacesCall | apps/agent/src/stream/assistant-stream-state.ts:210-219 | the end of a call gives all its parts |
| StreamContent.LastReportStands | apps/agent/src/stream/assistant-stream-state.ts:223-291 | result and metadata of a call are those last reported for its id |
| StreamContent.ProjectionShowsIff | apps/agent/src/stream/assistant-stream-state.ts:422-482 | a block is projected exactly when it is what a piece, or the result of a named call, shows |
| StreamContent.ProjectionIsInOrder | apps/agent/src/stream/assistant-stream-state.ts:422-482 | projected blocks stand in the order of their indexes, a call before its result |
| StreamContent.DeltaStreamFits | apps/agent/src/stream/assistant-stream-state.ts:145-152 | text that starts at a new index and grows by deltas fits throughout |
| StreamFlush.NextKeepsInv | apps/agent/src/session.ts:256-461 | every step of the scheduler keeps its invariant: patch numbering, what is sent, timers and flushes |
| StreamFlush.SingleFlight | apps/agent/src/session.ts:262-335 | at most one send of a stream object in flight, every patch has baseSeq one below seq, without gaps |
| StreamFlush.OneSendIff | apps/agent/src/session.ts:262-461 | through all resets a handle has at most one send in flight exactly when no timer or drain starts one while a send of a replaced stream is on its way |
| StreamFlush.SendsOutliveNothingIff | apps/agent/src/session.ts:442-461 | resets that find no send in flight leave none behind, and then at most one send is ever in flight |
| StreamFlush.DrainDelivers | apps/agent/src/session.ts:357-381 | with nothing in flight and no earlier throw, a drain delivers everything if its send succeeds or it has nothing to send, and nothing if its send throws |
| StreamFlush.ResetLosesNothingIff | apps/agent/src/session.ts:319-382 | with no earlier throw, a reset after a drain loses nothing exactly when the content by then is the drained content, or that of the send before if the drain's own send threw |
| StreamFlush.UndisturbedResetIff | apps/agent/src/session.ts:365-372 | when no update leaves other content behind, the reset loses something exactly when the drain's send threw, or no context let it send, and it had something new to tell |
| StreamFlush.LateUpdateIsLost | apps/agent/src/session.ts:857-863 | whatever an update adds once the drain has flushed is lost by the reset, even if the drain's send succeeds |
| StreamFlush.NothingStranded | apps/agent/src/session.ts:326-418 | while sends succeed and a context exists, unsent content has a timer or a flush that will look again |
| StreamFlush.RestMeansReplicated | apps/agent/src/session.ts:278-341 | whenever the scheduler is at rest and no send has thrown, the receiver shows exactly the sender's latest content |
| StreamFlush.SettledSendReschedulesIffOk | apps/agent/src/session.ts:326-340 | content that arrived during a flush is rescheduled exactly when its send did not throw |
| StreamFlush.FlushLeavesNothing | apps/agent/src/session.ts:278-335 | a flush sends all there is, and if nothing arrives until it settles nothing more is scheduled |
| StreamFlush.ScheduleArms | apps/agent/src/session.ts:384-418 | a wish to flush arms the timer no later than asked and never delays one that is armed |
| StreamFlush.ResetStartsAfresh | apps/agent/src/session.ts:442-461 | a reset stream has nothing shown, sent or scheduled, and a new message announces itself by an empty first patch |
| StreamFlush.StreamFlusher.BeginEmit | apps/agent/src/session.ts:256-300 | the method up to its await equals the model's emit step |
| StreamFlush.StreamFlusher.EndEmit | apps/agent/src/session.ts:326-341 | the rest of the method equals the settle step |
| StreamFlush.StreamFlusher.ScheduleUpdate | apps/agent/src/session.ts:384-418 | arms, keeps or replaces the timer as the schedule step does |
| StreamFlush.StreamFlusher.SendDelta | apps/agent/src/session.ts:283-319 | marks the content as sent and sends one patch numbered after the last, unless there is neither content nor boundary |
| StreamFlush.StreamFlusher.FinishDrain | apps/agent/src/session.ts:357-381 | the part of the drain after its wait equals the drain step that `DrainDelivers` is about |
| StreamSnapshot.UpsertRemembers | apps/agent/src/redis.ts:82-92 | upserting keeps identities unique and records the message under its identity |
| StreamSnapshot.StreamedView | apps/agent/src/redis.ts:198-248 | a stream event updates exactly its own message's entry, or starts the new turn |
| StreamSnapshot.StreamEventStores | apps/agent/src/redis.ts:198-249 | a stream event stores its turn, sequence number and message as current and clears the phase; of the same turn, another message before it becomes an intermediate one |
| StreamSnapshot.LifecycleStores | apps/agent/src/redis.ts:251-295 | a lifecycle event writes its phase at once and keeps the same turn's messages and sequence number |
| StreamSnapshot.UpsertPlaces | apps/agent/src/redis.ts:86-95 | upserting puts a message in its key's place or last, and touches no other |
| StreamSnapshot.RedisCatchesUp | apps/agent/src/redis.ts:147-170 | after a stream event Redis has the snapshot at once, or a timer writes it within half a second |
| StreamSnapshot.WritesAtOnceIff | apps/agent/src/redis.ts:147-248 | exactly the first and last event of a stream, one of another message, and one half a second after the last write are written at once |
| StreamSnapshot.FreshLosesOther | apps/agent/src/redis.ts:183-196 | starting a turn afresh loses contents exactly when the stored turn holds another identified message |
| StreamSnapshot.StepRefinesIff | apps/agent/src/redis.ts:183-307 | one step follows the picture of latest contents exactly when it neither restarts a turn, without local copy, of which Redis holds another message, nor clears a turn before its first write while Redis holds another |
| StreamSnapshot.SnapshotRefinesPicture | apps/agent/src/redis.ts:198-295 | a run shows the latest content of every identified message throughout exactly when no step does that |
| StreamSnapshot.RunKeepsInv | apps/agent/src/redis.ts:198-295 | intermediate identities stay unique, and the stored snapshot lags only behind an armed timer |
| StreamSnapshot.HeldCopyNeverForgets | apps/agent/src/redis.ts:170-196 | while the local copy is never pruned or cleared no step departs |
| StreamSnapshot.RestartForgetsTurn | apps/agent/src/redis.ts:183-196 | a run whose last step, a restart after an eviction, loses the turn's first message from the view |
| StreamSnapshot.EarlyClearRevivesTurn | apps/agent/src/redis.ts:297-307 | clearing a turn whose first write is pending brings the turn before it back |
| StreamSnapshot.SnapshotCache.Schedule | apps/agent/src/redis.ts:147-168 | writes now, later once, or not again, as the schedule step does |
| StreamSnapshot.SnapshotCache.CacheStream | apps/agent/src/redis.ts:198-249 | the method equals the stream step of the run model |
| StreamSnapshot.SnapshotCache.CacheLifecycle | apps/agent/src/redis.ts:251-295 | the method equals the lifecycle step |
| StreamSnapshot.SnapshotCache.Clear | apps/agent/src/redis.ts:297-307 | drops the local and the stored snapshot, or only those of the named turn |
| OriginCache.DecodeUndoesEncode | apps/api/src/app-domains.ts:111-121 | the stored text decodes to the binding it was written from |
| OriginCache.LookupIsCached | apps/api/src/app-domains.ts:102-131 | a lookup that misses leaves its answer for exactly a minute, or half a minute for an unbound host |
| OriginCache.SettledBindingIsAnswered | apps/api/src/app-domains.ts:102-131 | once a binding is written and invalidated and no other is written, prompt fills, of whatever lookups, never make the cache answer another |
| OriginCache.RacedFillIsRefused | apps/api/src/app-domains.ts:113-125 | an invalidation between a lookup's miss and its fill turns the fill away |
| OriginCache.PromptFillsKeepCacheCoherent | apps/api/src/app-domains.ts:102-131 | in every interleaving whose fills are prompt, the cache never answers with a binding read before the latest invalidation |
| OriginCache.HorizonIsExact | packages/core/src/app-domains/records.ts:64-70 | a fill at a given time is safe in every interleaving exactly when it is before the lookup's horizon |
| OriginCache.LateFillCanBeStale | apps/api/src/app-domains.ts:113-125 | a fill at or after the horizon can be stale |
| OriginCache.ShortLookupCanBeStale | apps/api/src/app-domains.ts:96-101 | a lookup of two seconds can refill stale |
| OriginCache.OriginKeys.FillIfGeneration | apps/api/src/app-domains.ts:85 | fills exactly when the live generation is the one seen |
| OriginCache.OriginKeys.Invalidate | packages/core/src/app-domains/records.ts:64-70 | bumps the generation, renews its day and deletes the entry |
| SessionOwner.EpochsOnlyGrow | apps/agent/src/ownership.ts:140-155 | within one lifetime of the key epochs never decrease and an epoch never changes hands |
| SessionOwner.DisplacedIsShutOut | apps/agent/src/ownership.ts:183-240 | a displaced owner can never renew or release with its epoch |
| SessionOwner.LeaseIsExclusive | apps/agent/src/ownership.ts:113-211 | with agent and API writing, at most one instance holds an unexpired, unreleased lease while no write shortens one |
| SessionOwner.ExclusiveIffExtends | apps/api/src/agent-ownership.ts:74-129 | a write keeps the lease exclusive in every extending continuation exactly when it does not shorten its owner's running lease |
| SessionOwner.ClaimGrantsLease | apps/agent/src/ownership.ts:113-175 | who may claim gets the lease for its full length, from epoch 1, the same epoch, or the next one of a lapsed owner; nobody else changes anything |
| SessionOwner.LeaseLifeCycle | apps/agent/src/ownership.ts:113-240 | claim, renewal with the epoch got, release and the next claim all succeed in turn |
| SessionOwner.ShorteningBreaksExclusion | apps/agent/src/ownership.ts:170-211 | a write that shortens a promised lease leads to two believers |
| SessionOwner.OrderedWritesExtend | apps/agent/src/ownership.ts:170-211 | writes in clock order with one lease length never shorten |
| SessionOwner.OwnerKey.ClaimScript | apps/agent/src/ownership.ts:120-157 | first epoch, takeover of a lapsed lease, or refresh of one's own; otherwise the record stands |
| SessionOwner.OwnerKey.RenewScript | apps/agent/src/ownership.ts:177-200 | renews exactly for the recorded owner and epoch |
| SessionOwner.OwnerKey.ReleaseScript | apps/agent/src/ownership.ts:216-233 | deletes exactly for the owner and, if given, the epoch, and reports whether the key is gone |
| AppRooms.NextKeepsInv | apps/api/src/app-rooms.ts:25-38 | every step keeps the index and the codes in line with the live rooms |
| AppRooms.RoomsAreSound | apps/api/src/app-rooms.ts:20-38 | at every moment at most 512 live rooms, each indexed under its exact expiry in an index that outlives it, and each live code names one live room of the same expiry |
| AppRooms.RefusedIff | apps/api/src/app-rooms.ts:28-30 | a room is refused exactly at the quota or when a live room has the code |
| AppRooms.CreationEffect | apps/api/src/app-rooms.ts:31-37 | an allocation adds exactly the new room, reachable by its code; a refusal changes none |
| AppRooms.RoomLivesUntil | apps/api/src/app-rooms.ts:31-37 | a new room lives, and its code finds it, until exactly the expiry asked for |
| AppRooms.LookupEffect | apps/api/src/app-rooms.ts:138-150 | looking up the code of a live room changes nothing, and the code of one that is gone is deleted |
| AppRooms.SweepLeavesLiveRooms | apps/api/src/app-rooms.ts:28 | after the sweep the index lists exactly the live rooms |
| AppRooms.StepKeepsReachableIff | apps/api/src/app-rooms.ts:138-150 | a step keeps every live room reachable by its code exactly when it does not delete a code in use |
| AppRooms.ReachableIffNoLiveDrop | apps/api/src/app-rooms.ts:25-150 | over a run every live room is reachable throughout exactly when no cleanup deletes a live code key |
| AppRooms.CleanupMayOrphanRoom | apps/api/src/app-rooms.ts:138-150 | a run in which a slow lookup's cleanup deletes the code of a newer room |
| AppRooms.RoomKeys.CreateScript | apps/api/src/app-rooms.ts:25-38 | the script equals the creation step |
| AppRooms.RoomKeys.CreateAppRoom | apps/api/src/app-rooms.ts:157-203 | a chosen code is tried once, random codes five times, and the outcome is that of the last try |
| CommandMigration.NodeStreams.Migrate | apps/api/src/channels.ts:143-184 | for every stream and page size the scan ends with the channel's commands appended once in order and the rest in place, the count exact, stopping only at a payload it throws on; which entries those are is stated by `EntryMovesIff` and `PlainStreamSplits` |
| CommandMigration.NodeStreams.Scan | apps/api/src/channels.ts:155-179 | pages with deletions visit every entry once |
| CommandMigration.NextPage | apps/api/src/channels.ts:156-178 | despite deletions the next page starts right after the last scanned entry, and a short page is the last |
| CommandMigration.ScanOne | apps/api/src/channels.ts:159-174 | dealing with an entry leaves it in place or cuts out exactly that entry |
| CommandMigration.DrainedIffNothingThrows | apps/api/src/channels.ts:160-168 | the whole stream is scanned exactly when no payload is null, and then nothing of the channel is left |
| CommandMigration.EntryMovesIff | apps/api/src/channels.ts:159-175 | an entry moves exactly when its payload, the field after the first one named payload or else the first field, is a command of the channel; it throws exactly for a null payload |
| CommandMigration.PlainStreamSplits | apps/api/src/channels.ts:159-175 | of entries with a payload field that holds a command, exactly those of other channels stay, and exactly the channel's commands go, in order, each with its body and channel, to the new node |
| CommandMigration.OddEntriesStay | apps/api/src/channels.ts:160-166 | an entry without payload, with an empty one, or with unparsable text stays |
| CommandMigration.NothingLostOrDoubled | apps/api/src/channels.ts:159-175 | every entry either stays or goes, once |
| CommandMigration.OrderIsKept | apps/api/src/channels.ts:169-172 | an earlier command of the channel arrives before a later one, both retargeted |
| JsonText.EscapeReads | apps/api/src/board-create-idempotency.ts:9-11 | an escaped string reads back, with lone surrogates and control characters |
| JsonText.QuotedUnique | apps/api/src/board-create-idempotency.ts:9 | quoted strings that start the same are the same |
| JsonText.PrintUnique | apps/api/src/board-create-idempotency.ts:3-12 | values whose texts start the same and end at a delimiter are equal, at any depth |
| CanonicalJson.EqualTextsAreSame | apps/api/src/board-create-idempotency.ts:3-12 | equal canonical texts mean equal values up to member order, under any collation |
| CanonicalJson.CanonicalIsExact | apps/api/src/board-create-idempotency.ts:3-12 | under a collation that tells an object's keys apart where their order is not fixed, texts are equal if and only if the values are |
| CanonicalJson.SeparatedIffOneText | apps/api/src/board-create-idempotency.ts:3-12 | every way to write a value gives one text exactly when the collation tells the keys of each of its objects, at any depth, apart, integer-like keys aside, whose order is fixed |
| CanonicalJson.TiedKeysHaveTwin | apps/api/src/board-create-idempotency.ts:5-9 | a value with tied keys, not integer-like, anywhere has an equal value with another text |
| CanonicalJson.SortKeepsTiedOrder | apps/api/src/board-create-idempotency.ts:8 | sorting keeps the order of members whose keys compare equal |
| CanonicalJson.AscendingUnique | apps/api/src/board-create-idempotency.ts:6-8 | entries sorted by the collation, and by the fixed key order where it ties, are one list if they have the same members |
| CanonicalJson.SameHaveEqualNormals | apps/api/src/board-create-idempotency.ts:5-9 | equal values normalize to the same value |
| CanonicalJson.EqualNormalsAreSame | apps/api/src/board-create-idempotency.ts:5-9 | values with one normal form are equal |
| CanonicalJson.IdentityIsExact | apps/api/src/board-create-idempotency.ts:22-34 | two requests get the same seeds exactly for the same space, mutation id and payload digest, hence for the same payload unless digests collide, whatever the mutation id holds |
| CheckpointDiffParse.ParseNameStatus | apps/api/src/checkpoint-diff-parse.ts:12-39 | the loop ends on any input and reads what the specification reads |
| CheckpointDiffParse.ParseNumstat | apps/api/src/checkpoint-diff-parse.ts:49-96 | the loop ends on any input and sets what the specification sets |
| Strings.JoinSplit | apps/api/src/checkpoint-diff-parse.ts:76 | joining what was split at a separator gives the text back |
| CheckpointDiffParse.ParsersUndoPrinting | apps/api/src/checkpoint-diff-parse.ts:12-96 | parsing the printed outputs of any list of changes with proper distinct paths returns the list, and every entry finds its own counts under its new path |
| CheckpointDiffParse.NameStatusReadsBack | apps/api/src/checkpoint-diff-parse.ts:20-38 | printed name-status fields read back one by one |
| CheckpointDiffParse.NumstatReadsBack | apps/api/src/checkpoint-diff-parse.ts:54-95 | printed numstat fields, with tabs in paths and renames, read back one by one |
| CheckpointDiffParse.ParseIntUndoesDecimal | apps/api/src/checkpoint-diff-parse.ts:69-75 | parseInt reads back a printed count, and a count is not "-" |
| CheckpointDiffParse.ParseIntReads | apps/api/src/checkpoint-diff-parse.ts:69-75 | a number may have white space and a sign before it and anything but a digit after it |
| CheckpointDiffParse.StatusIsFirstVisible | apps/api/src/checkpoint-diff-parse.ts:3-10 | a status is the first character after white space, in either case |
| CheckpointDiffParse.NameStatusSkips | apps/api/src/checkpoint-diff-parse.ts:20-38 | what is no status is skipped alone, and an entry cut off before its path is dropped |
| CheckpointDiffParse.NumstatSkips | apps/api/src/checkpoint-diff-parse.ts:54-95 | what is no numstat field is skipped alone; a field without path takes the new path two fields on, or else the old one |
| CheckpointDiffParse.SplitTerminated | apps/api/src/checkpoint-diff-parse.ts:17 | splitting NUL-terminated tokens returns them and one empty part |
| CheckpointDiffParse.WithStatsFinds | apps/api/src/checkpoint-diff-parse.ts:89-93 | with distinct paths each entry's counts survive the later ones |
| AssistantNormalizer.NormalizeToolExecutions | apps/agent/src/assistant-message-normalizer.ts:111-176 | the two loops build the executions of the specification, in insertion order |
| AssistantNormalizer.NormalizeAssistantTurn | apps/agent/src/assistant-message-normalizer.ts:210-295 | the loops write the blocks of the specification, whose content `CallsAreConserved`, `ProseIsConserved` and `CallsStandWhereMentioned` state |
| AssistantNormalizer.BlockWriter.EmitToolUseBlock | apps/agent/src/assistant-message-normalizer.ts:178-192 | writes a use once per call |
| AssistantNormalizer.BlockWriter.EmitToolResultBlock | apps/agent/src/assistant-message-normalizer.ts:194-208 | writes a result once per call that has one |
| AssistantNormalizer.BlockWriter.WriteItem | apps/agent/src/assistant-message-normalizer.ts:220-290 | writes for one item what the specification writes |
| AssistantNormalizer.KnownIff | apps/agent/src/assistant-message-normalizer.ts:118-152 | a call is known exactly when a named raw result or a named call block mentions it |
| AssistantNormalizer.KnownIsMeant | apps/agent/src/assistant-message-normalizer.ts:111-176 | name, input and metadata of a call come from the last block that gives them, its result from the last non-empty result read once it is known, its error flag from its last raw result or any such result, all else from its last raw result |
| AssistantNormalizer.CallsAreConserved | apps/agent/src/assistant-message-normalizer.ts:220-295 | every named call has exactly one tool_use and, exactly when it is answered, one tool_result after it, both as the message and its raw results describe it |
| AssistantNormalizer.CallBlocksSay | apps/agent/src/assistant-message-normalizer.ts:111-208 | the use and the result of a named call, field by field: from the last blocks that name it, give its input and metadata, or answer it, else from its last raw result; it failed exactly if its raw result or any heeded result block did |
| AssistantNormalizer.LooseResultsStay | apps/agent/src/assistant-message-normalizer.ts:268-289 | of an id that nothing names, every result block comes out as it is, and no use |
| AssistantNormalizer.ResultIsKeptIff | apps/agent/src/assistant-message-normalizer.ts:154-165 | a named call keeps a tool_result exactly when its last raw result has content or a non-empty result block comes after the call is known |
| AssistantNormalizer.ProseIsConserved | apps/agent/src/assistant-message-normalizer.ts:224-245 | the text, thinking and image blocks are, one by one and in order, what the text items, thinking items and normalized images say |
| AssistantNormalizer.CallsStandWhereMentioned | apps/agent/src/assistant-message-normalizer.ts:220-295 | a named call's tool_use comes right after the prose before its first mention, its tool_result after the prose before its first result block, and what no item mentions after all prose |
| AssistantNormalizer.ExtractToolCalls | apps/agent/src/persistence.ts:497-526 | the two loops store the calls of the specification |
| AssistantNormalizer.ExtractionRecoversCalls | apps/agent/src/persistence.ts:497-526 | reading the stored blocks recovers every named call's id, name, input, result and error flag as the message and its raw results describe them, and no other call |
| AssistantNormalizer.EarlyResultIsDropped | apps/agent/src/assistant-message-normalizer.ts:154-156 | an input on which a result block before its own call is dropped |
| StagedPaths.StagedPathBatches | apps/agent/src/sandbox-bash.ts:150-166 | the batches concatenate to the input, each within 200 paths and 48 KiB or one oversized path, and no contiguous split under those limits has fewer |
| StagedPaths.GreedyIsOptimal | apps/agent/src/sandbox-bash.ts:150-166 | a greedy split that is ahead of another never needs more batches |
| StagedPaths.AllowedPiece | apps/agent/src/sandbox-bash.ts:154-163 | every non-empty piece of an allowed batch is allowed |

## Left out

- Network, Postgres, Redis, BullMQ, S3, Kubernetes and git processes; logging, tracing, metrics, realtime publishing, billing and permissions.
- Interleaving of statements inside one Postgres transaction, and int4 overflow of sequences.
- `apps/agent/src/processor.ts`: the orchestration around lock, claim, run and release.
- Turn rows keep only kind, status, intent, sequence, time and the metadata that claims use; user content and results are not modelled. `limitBatchSize` and `limitBatchToApprovalMode` are any non-empty prefix.
- StreamDelta: signatures and `_meta` of text and thinking blocks, and `_meta` of tool results, are not part of the compared content, because the code neither compares nor always resends them. Positions stand for missing stream indexes, which `StreamProjection` shows do not occur.
- StreamFlush.NothingStranded: holds while sends succeed; what a failed send leaves behind is `SettledSendReschedulesIffOk`. A send that throws counts as not received, and what a receiver makes of later patches after a lost one is not characterised. An assistant context is attached only when a stream is reset.
- StreamProjection: which metadata a tool run records is part of the event; `mergeFinalAssistantContentWithStreamOrder` and `closeInterruptedToolCalls` are not modelled.
- StreamSnapshot: each update runs as one step, including its awaited read of Redis (`apps/agent/src/redis.ts:170-181`), so updates of one session do not overlap; readers of the Redis copy alone, and a process that ends with an armed timer, see an older snapshot; clearing acts on the local and the stored copy in one step; the Redis expiry of the snapshot, failed writes, and which age triggers pruning; a copy with an armed timer is not pruned, because pruning waits at least a minute and a timer half a second by default.
- SessionLock: the interval timer may tick at any moment, so its period is not modelled; a key is gone from its expiry instant on, while Redis keeps it until just after; the run of `MarginIsTight` uses that instant.
- OriginCache: an expired key is gone from its expiry instant on; failed invalidations, the compare-and-set loop of `removeAppDomain` and domain checks are not modelled.
- SessionOwner.EpochsOnlyGrow: epochs restart at 1 when the record is released, so ordering is stated per lifetime of the key; releasing and giving up the lease is one step; `claimedAt`, `updatedAt`, `chooseOwnerInstance` and `resolveOrClaimSessionOwner` are not modelled.
- AppRooms: the API's clock and the Redis clock are one clock; option validation, tokens, and how random codes are drawn; a creation that reuses a room id is not modelled.
- CommandMigration: the migration lock, failures of XRANGE, XADD and XDEL, and entries appended while the scan runs; `pickGatewayNode` and its scores.
- CanonicalJson: SHA-256 is any function to 64 digits, and the UUIDs are left as the seeds they are hashed from; numbers are their JSON text; `localeCompare` is any map from keys to weights.
- CheckpointDiffParse: UTF-8 decoding, counts beyond 2^53, and unified patches (`apps/api/src/checkpoint-diff.ts`).
- AssistantNormalizer: metadata of tool results, and the order in which `extractToolCalls` lists calls; content normalizers are arbitrary, their outcome is part of the input.
- StagedPaths: `shellSingleQuote`, `buildManifest` and `stagedSourcePaths`.
