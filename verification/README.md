# YapHub recovery: a verified model

YapHub is a Discord bot that opens a voice room for each member who enters a
lobby and removes it when it is empty. This project models the parts of it that
must not go wrong and proves what they promise. It is a Dafny 4.11 project:
`dafny verify dfyconfig.toml` checks all of it.

## What is modelled

**The durable room-creation protocol.** A pending join becomes an intent, the
intent a Discord create, the create a tracked room, the room a move, a panel and
a count. `Tables` holds the durable tables and one function per transaction,
`RecoveryStore` the store as an object proved against them, `StoreRuns` what
holds of every sequence of transactions. `Protocol` is the whole system as a
step relation: one program counter per run of `run_join` and `run_cleanup`, one
step per awaited transaction or Discord call, a crash between any two steps,
creates that take effect after the bot stopped waiting, member moves, handlers
whose writes come from stale reads, staff resolution, restarts. A create or move
whose reply is lost may or may not have happened; a deferral or a 4xx means that
nothing was made. `ProtocolInvariant`, `ProtocolSteps`, `Tracking`,
`Transactions` and `Frames` carry the invariants; `ProtocolTheorems`,
`Deletion`, `Occupancy`, `Rejection`, `Accounting`, `HandlerWrites` and `Completion`
draw the conclusions over whole runs. `JoinAnswers` and `CleanupAnswers` say, answer
by answer, what an undisturbed run leaves behind, `Resumption` how an interrupted
one goes on.
`Scheduler` is the rotation both queues share, `Handlers` the departure, removal
and scan handlers over the store, `HandlerRuns` their place in the protocol,
`Bot` the gateway events and the start of the process.

**The REST admission gate.** `ApiGate` is the rate-limit gate over one clock:
global and bucket scopes, a single probe after expiry, a lock that is held
across each storage call, lost calls, crashes. `GateDurability` compares memory,
disk and the gate that a restart rebuilds. `ApiRecovery` is the gate as an
object, proved against the steps, `GateRecovery` when it opens
again, `ProbeLeak` what an abandoned probe does,
`TraceHooks` the hooks before every transmission and `HookRuns` their place in the
protocol's runs.

**Room access.** `Permissions` is the three-valued overwrite algebra, judged by
Discord's resolution order. `VoiceChannel` performs the writes, over a cache
that may lag by any amount and with any write failing. `RoomActions` follows the
permit and block lists through the life of a room.

**The older path and the small windows.** `LegacyRooms` and `CreationLocks` are
the per-owner create with its cleanup and reconcile passes, `LegacyPromises` what
its runs keep and exactly which steps do not, `LegacyLosses` how rooms are lost,
`LegacyOutcomes` how its runs end; `Windows` the rename limit and the request
metrics; `Backoffs` the two retry gates.

## Assumptions

- Discord never reuses a channel id, a channel never changes guild, and a
  bot-made voice channel stays a voice channel.
- An audit entry that carries an intent's id, and evidence that staff have
  verified, are true. Staff read the intent and claim its guild in one step.
- The HTTP transport never sends the headers of one POST a second time, so once a
  create has gone out no deferral comes back for it. If it did, the hook would
  answer with a deferral exactly as `SentCreateDefersExactly` says, and run_join
  would treat the create as never sent.
- There is one clock and it never runs backwards. Delays are positive. Who is in a
  channel is what the gateway reports.
- The store's transactions are atomic, and a transaction that raises changes
  nothing. Unique ids never repeat.
- Handlers are NOT assumed atomic, except where a row below says so: their
  cancelling write is an action of its own that may come from a stale read.

## Where a promise fails

The architecture notes say that a managed room that still exists is never
forgotten (docs/ARCHITECTURE_AND_OPERATIONS.md:9). The code keeps this except in
the cases below, each with a lemma that exhibits or characterises it.

- A departure, removal or scan handler that reads an intent before the worker
  marks it sent, and writes after, makes the bot forget the room: now or in some
  continuation exactly when a create of the intent is in flight or about to be
  transmitted, or one of its live rooms is outside the table
  (`HandlerWriteForgetsExactly`; a whole run from boot: `StaleWriteForgetsARoom`).
- A restriction whose save failed does not survive a restart
  (`LostSaveOpensEarly`; exactly when: `CrashKeepsClosedExactly`). A rebuilt gate
  decides otherwise than the one that stopped exactly as
  `RebuiltGateAdmitsTheSameExactly` says; in the plainest case that is a route of
  a shut bucket whose record names another route (`OnlyUnnamedRoutesAreForgotten`,
  with `SharedBucketIsForgotten` as an instance).
- A deferred identity request can keep the global probe (exactly when:
  `DeferredWithProbe`; a run: `LeakIsReached`), and then shuts out every other
  request (`LeakShutsEveryoneOut`).
- The rotation is fair to each queue but not across both (`MixedQueuesCanStarve`;
  exactly who falls back: `PositionAfter`; who is not passed over keeps the bound:
  `BoundedChances`).
- Lifting a restriction does not restore a value @everyone had
  (`LiftDoesNotRestoreEveryone`).
- Lists and overwrites disagree after a permit whose grant fails on a member not
  yet allowed, a block whose removal of the permit fails, or an unpermit, kick or
  unblock that contradicts a list, and in no other case (`AgreementKeptExactly`).
- Overlapping permit and block leave a member on both lists exactly when each adds
  after the other has removed (`OverlapContradictsExactly`).
- An unpermit, unblock or kick that names the bot itself shuts the bot out of a
  locked or hidden room, and nothing else does (`BotStaysExactly`).
- In the older path a live room ends up as nobody's by a restart between a create
  and its record, a create whose reply is lost, a refused rollback of a room that
  exists, or a record that displaces a room its owner was given meanwhile, and by
  no other step (`StepKeepsKnownExactly`; a run from the start for each:
  `RestartLosesARoom`, `LostReplyLosesARoom`, `RefusedRollbackLosesARoom`,
  `TransferLosesARoom`). One room for each owner fails by a transfer alone: exactly
  when the new owner's create is past looking for that room
  (`TransferGivesTwoExactly`), and then a room is lost exactly if the given one
  exists and the create may still record (`TransferLosesExactly`).
- Overlapping renames exceed the limit exactly when a check at the moment of the
  record would refuse it (`RecordKeepsLimitExactly`).

## Model

| member | source | states |
|---|---|---|
| `StoreRuns.CommitKeepsWellFormed` | services/recovery_store.py:28-134 | no transaction, whatever its arguments, breaks the queue bounds, the one-open-intent index, the one-room-per-owner index or the uniqueness of ids |
| `StoreRuns.AlwaysWellFormed` | schema.sql:122-137 | so in every sequence of transactions at most 500 joins wait, at most 50 in one guild, and both unique indexes hold |
| `StoreRuns.OldRevisionIsPowerless` | services/recovery_store.py:46-59 | once a queue row is replaced or removed, a worker's old copy never becomes current again and can neither cancel nor delay what replaced it |
| `StoreRuns.RetargetOutdates` | services/recovery_store.py:28-44 | re-targeting a request makes every copy taken before it such an old one |
| `StoreRuns.EnqueueTimeIsKept` | services/recovery_store.py:38-43 | however often its target changes or it is deferred, a request that keeps waiting keeps its first enqueue time |
| `StoreRuns.AttachRefusedExactly` | services/recovery_store.py:79-92 | attach is refused if and only if the channel is someone else's, the owner has another tracked room, or another open intent |
| `StoreRuns.AttachDisplacesNothing` | services/recovery_store.py:79-92 | an attach that commits changes no other room and no other intent |
| `StoreRuns.RepeatingChangesNothing` | services/recovery_store.py:28-134 | each transaction but a deferral is idempotent: done again at once, at whatever later time, it changes nothing more |
| `RecoveryStore.RecoveryStore.EnqueueJoin` | services/recovery_store.py:28-44 | the whole effect on the queue, refused exactly when a first request would overflow a bound |
| `RecoveryStore.RecoveryStore.Cancel` | services/recovery_store.py:46-49 | deletes the request, with a revision only that revision, and reports the rows deleted |
| `RecoveryStore.RecoveryStore.DeferJoin` | services/recovery_store.py:51-54 | delays only the revision held, by at least one second |
| `StoreRuns.CurrentMayCancel` | services/recovery_store.py:46-59 | a copy is current exactly while its holder's cancel would remove the request |
| `RecoveryStore.RecoveryStore.IntentFor` | services/recovery_store.py:61-73 | the owner's only open intent, inserted as prepared exactly when there was none |
| `RecoveryStore.RecoveryStore.WritePhase` | services/recovery_store.py:75-77 | the unconditional phase update, refused exactly when it would open a second intent |
| `RecoveryStore.RecoveryStore.AttachRoom` | services/recovery_store.py:79-92 | room and intent commit together or not at all |
| `RecoveryStore.RecoveryStore.CompleteIntent` | services/recovery_store.py:94-107 | stamps and counts a moved intent, and reports true exactly when it counted |
| `RecoveryStore.RecoveryStore.QueueCleanup` | services/recovery_store.py:109-112 | the cleanup request is due at once, once per channel and leaver |
| `RecoveryStore.RecoveryStore.RecordCleanup` | services/recovery_store.py:114-121 | removes a finished request, delays an unfinished one by at least one second |
| `RecoveryStore.RecoveryStore.RestoreSent` | services/recovery_store.py:123-125 | after a restart no intent is `sent`; those that were are unresolved |
| `StoreRuns.ProtectionChangesOnlyBy` | services/recovery_store.py:127-130 | a room becomes protected only by an attach, a guarded phase or a restart, and stops being so only by a count, an unguarded phase, its deletion or another attach |
| `RecoveryStore.RecoveryStore.ChannelDeleted` | services/recovery_store.py:132-134 | closes the channel's intents; afterwards nothing protects it |
| `RecoveryStore.RecoveryStore.DeleteRoom` | storage.py:498-514 | forgets one tracked room with exactly its permits and blocks |
| `RecoveryStore.RecoveryStore.TransferRoom` | storage.py:482-496 | changes the owner, refused exactly when the new owner has a room already |
| `ProtocolSteps.JoinKeeps` | services/lifecycle_recovery.py:232-408 | every step of run_join keeps the invariant Core: per-guild exclusion, at most one channel per intent, correct attribution, and for each program counter what the worker may rely on; what each answer ends in is stated by the JoinAnswers rows |
| `ProtocolSteps.AuditKeeps` | services/lifecycle_recovery.py:410-431 | so does the audit recovery, which attaches only a channel that came from this very intent |
| `ProtocolSteps.CleanKeeps` | services/lifecycle_recovery.py:433-466 | so does every step of run_cleanup, with its two passes through the older cleanup code; what each answer leads to is stated by the Occupancy and CleanupAnswers rows |
| `ProtocolSteps.StaffKeeps` | commands/recovery.py:31-59 | so does a staff resolution |
| `ProtocolSteps.StepKeepsCore` | services/lifecycle_recovery.py:157-466 | so does every action of the system: crashes, restarts, late creates, member moves, handlers that write from stale reads |
| `Transactions.ActionIsOneTransaction` | services/lifecycle_recovery.py:225-466 | each action changes the tables by at most one store transaction, and by which one |
| `Transactions.RunsStayWellFormed` | schema.sql:122-137 | the queue bounds and unique indexes hold in every run of the protocol |
| `ProtocolTheorems.OneRunPerGuild` | services/lifecycle_recovery.py:143-155 | no two workers or staff resolutions ever run in one guild |
| `ProtocolTheorems.NoReplay` | services/lifecycle_recovery.py:318-347 | over a whole run, restarts included, no intent yields two channels |
| `Rejection.RetransmittedOnlyAfterThrottling` | services/lifecycle_recovery.py:318-347 | between two transmissions of one intent, across crashes, restarts, lost replies and refusals, lies a 429 to the first |
| `Rejection.RefusedIsNeverSentAgain` | services/lifecycle_recovery.py:330-343 | once Discord refuses the create of an intent, no continuation of the run sends it again, and no channel ever comes from it |
| `ProtocolTheorems.CreateIsGuarded` | services/lifecycle_recovery.py:284-321 | when a create goes out, its intent has made nothing, nothing of it is in flight, no other intent of the owner is open, and the owner is in the lobby of the row |
| `Occupancy.SentOnlyWithoutARoom` | services/lifecycle_recovery.py:300-321 | a run decides to create a room only when it has just found that its owner has none recorded |
| `ProtocolTheorems.MoveIsGuarded` | services/lifecycle_recovery.py:358-380 | when a move goes out, the owner is in that lobby and the target is the one room of the owner's intent |
| `TraceHooks.EveryTransmissionIsGuarded` | services/api_recovery.py:225-240 | whatever the transport retries, each transmission of a guarded create or move happens when the gate admits it and its precondition holds, and a create goes out at most once for each request |
| `TraceHooks.TransmitsExactly` | services/api_recovery.py:225-237 | an attempt goes out if and only if the gate admits it, it is no guarded mutation whose member has left, and it is no second create |
| `TraceHooks.ReplayIsAmbiguous` | services/api_recovery.py:234-235 | a create that would be sent again ends in doubt or deferred |
| `TraceHooks.SentCreateDefersExactly` | services/api_recovery.py:225-236 | a create that has gone out ends deferred if and only if the transport sends it a second time and then the gate refuses or the member has left; without a second attempt a deferral means nothing was sent |
| `HookRuns.RetriesIncluded` | services/api_recovery.py:225-240 | in any run of the protocol, an attempt of a create or move is transmitted if and only if the gate admitted it and all before it and the protocol could transmit at each of them |
| `HookRuns.TransmittedAttemptsAreGuarded` | services/lifecycle_recovery.py:284-347 | so whatever the transport retries, every transmission from a first boot on is a guarded one: the member in the lobby of the row, the create's intent fresh, the move's target the room of the intent |
| `TraceHooks.TraceContext.Attempt` | services/api_recovery.py:225-240 | the hook's counter and checks transmit exactly those attempts |
| `ProtocolTheorems.RefusedAttachEndsUnresolved` | services/lifecycle_recovery.py:348-355 | a refused attach changes no table, the next write marks the intent unresolved and cannot be refused, and the run is over |
| `ProtocolTheorems.NoRoomForgotten` | services/lifecycle_recovery.py:318-357 | in every run without a stale handler write, every live bot-made channel is tracked or its intent is `sent` or `unresolved` |
| `ProtocolTheorems.SentIsWrittenFirst` | services/lifecycle_recovery.py:318-328 | in such a run `sent` is durable before any transmission |
| `ProtocolTheorems.AtomicHandlersAreNotStale` | services/lifecycle_recovery.py:64-86 | a handler that reads and writes in one step never writes over a pending create |
| `HandlerWrites.HandlerWriteForgetsExactly` | services/lifecycle_recovery.py:64-86 | after a handler's write no continuation without further stale writes forgets a room: if and only if no create of the intent is in flight or about to be transmitted and none of its live rooms is outside the table |
| `Tracking.StepKeepsTracked` | services/lifecycle_recovery.py:225-466 | every action but a stale handler write keeps all rooms remembered |
| `StaleWrite.StaleWriteForgetsARoom` | services/lifecycle_recovery.py:64-77 | a concrete run in which a departure handler's late write makes the bot forget a live room for good |
| `Deletion.CheckStaysTrue` | services/lifecycle_recovery.py:433-466 | from the protects check of a cleanup until its record is dropped, no intent protects the room |
| `Deletion.OnlyUnprotectedRoomsAreDeleted` | services/lifecycle_recovery.py:440-466 | a room disappears on Discord's side or by a cleanup's delete, and then no created, moved or unresolved intent has it |
| `Occupancy.DeletedRoomsWereEmpty` | services/temp_channels.py:249-262 | in every run from a first boot, a room that disappears other than on Discord's side was found empty by the cleanup that deletes it, as the last thing that cleanup did before |
| `Deletion.RowsLeaveOnlyWhenAbsent` | services/temp_channels.py:208-279 | a row leaves active_temp_channels only once its channel is gone |
| `Deletion.NoClaimIsLost` | services/lifecycle_recovery.py:174-193 | a guild is claimed exactly while some run holds it |
| `Accounting.CountedExactlyOnce` | services/recovery_store.py:94-107 | the room_created counter equals the number of intents with a completion stamp, in every run |
| `Accounting.CompletedOnlyOnce` | services/recovery_store.py:94-107 | a completion stamp never changes, even when a handler overwrites the phase |
| `Completion.UndisturbedJoinCompletes` | services/lifecycle_recovery.py:232-408 | from every state in which nothing stands in the way, the worker's steps end with one completed intent, one tracked room with its panel, the member inside, one count and the guild free |
| `JoinAnswers.DeferredCreateWaits` | services/lifecycle_recovery.py:328-330 | a create the gate defers: the intent is prepared again, the request waits as long as the gate says, nothing else changes |
| `JoinAnswers.ThrottledCreateWaits` | services/api_recovery.py:295-303 | a 429: nothing is in flight, the client may send again, and a deferral then leaves the intent prepared and the request waiting |
| `JoinAnswers.RefusedCreateIsCancelled` | services/lifecycle_recovery.py:330-342 | a create Discord refuses: the intent is cancelled, the current request is gone, the guild is free, nothing else changes |
| `JoinAnswers.LostCreateIsInDoubt` | services/lifecycle_recovery.py:337-346 | a create whose reply is lost: the intent is unresolved, the request waits a minute |
| `JoinAnswers.RefusedAttachIsInDoubt` | services/lifecycle_recovery.py:348-355 | a room that cannot be recorded: the same |
| `JoinAnswers.InterruptedAttachIsInDoubt` | services/lifecycle_recovery.py:348-355 | an attach that commits while its caller is interrupted: the room is recorded, the intent is unresolved all the same |
| `JoinAnswers.WaitingLeaves` | services/lifecycle_recovery.py:174-193 | each answer after which a join only waits, and for how long: its request is due then, nothing else changes |
| `JoinAnswers.GivingUpEndsTheJoin` | services/lifecycle_recovery.py:225-230 | each answer that ends a join for good: the request is gone, the intent is cancelled, its room, if any, has a cleanup that is due now, nothing else changes |
| `JoinAnswers.OutdatedJoinChangesNothing` | services/lifecycle_recovery.py:252-253 | a worker whose request was replaced or withdrawn changes nothing |
| `JoinAnswers.RetargetedRoomIsCleaned` | services/lifecycle_recovery.py:260-266 | a request for another lobby while a room exists: the old intent is cancelled, the room is handed to the cleanups, the request waits 5 seconds |
| `JoinAnswers.RetargetedJoinStartsOver` | services/lifecycle_recovery.py:260-267 | without a room the same run goes on with a fresh intent for the new target |
| `JoinAnswers.EmptyOtherRoomIsCleaned` | services/lifecycle_recovery.py:301-315 | another room of the owner that is empty is handed to the cleanups, and the request waits 5 seconds |
| `JoinAnswers.GoneOtherRoomIsForgotten` | services/lifecycle_recovery.py:303-308 | one that is gone loses its record, and the request comes back in a second |
| `JoinAnswers.GoneOwnRoomIsForgotten` | services/lifecycle_recovery.py:290-297 | an own room that is gone loses its record and its intents are closed, and the request comes back in a second |
| `JoinAnswers.NoEvidenceKeepsTheDoubt` | services/lifecycle_recovery.py:410-424 | an audit without an entry leaves the intent in doubt and is not repeated by this process |
| `JoinAnswers.EvidenceRecoversTheRoom` | services/lifecycle_recovery.py:424-431 | an audit with one tracks the room for the owner and gives it to the intent |
| `JoinAnswers.ForbiddenPanelIsBlocked` | services/lifecycle_recovery.py:390-399 | a panel Discord forbids: the intent is blocked, the room stays, the request is gone |
| `Resumption.SentJoinIsAudited` | services/lifecycle_recovery.py:240-246 | an intent found sent is marked unresolved and audited, never sent |
| `Resumption.PreparedJoinIsSent` | services/lifecycle_recovery.py:247-321 | a prepared one is written as sent and then about to be transmitted |
| `Resumption.JoinInOwnRoomIsFinished` | services/lifecycle_recovery.py:356-408 | a member found in the room of their created, moved or blocked intent: the missing panel is posted, the room counted once, the request ended, nobody moved |
| `Resumption.StaffResolveOnlyDoubts` | commands/recovery.py:36-48 | staff resolve only an unresolved intent of a free guild, and claim the guild |
| `Resumption.StaffRecoverTheRoom` | commands/recovery.py:50-52 | a room they name is tracked for the owner of the intent, which has it |
| `Resumption.StaffCloseTheIntent` | commands/recovery.py:53-54 | without a room the intent is cancelled |
| `Resumption.RestartMeans` | services/recovery_store.py:123-125 | a restart keeps every row but marks sent intents unresolved, and remembers exactly the tracked rooms |
| `Completion.UndisturbedCleanupRemoves` | services/lifecycle_recovery.py:433-466 | an undisturbed cleanup of an empty, unprotected room, queued by a departure or by a sweep, remembered or not, removes the room, its record and the request and closes its intents |
| `CleanupAnswers.OccupiedRoomIsKept` | services/temp_channels.py:249-281 | a cleanup of a room with somebody inside, whoever asked for it, changes nothing but its own due time: a minute, or 5 seconds if an intent protects the room |
| `CleanupAnswers.DoubtKeepsTheRoom` | services/lifecycle_recovery.py:433-466 | each answer that leaves the room alone, and when it is looked at again; nothing else changes |
| `CleanupAnswers.BackfillKeepsTheRoom` | services/temp_channels.py:281-283 | a pass that posts a missing panel records that and nothing else |
| `CleanupAnswers.AbsenceForgetsTheRoom` | services/temp_channels.py:216-224 | a 404 has the same effect as a delete |
| `CleanupAnswers.FinishedMeans` | services/lifecycle_recovery.py:461-464 | which is: room, record, memory and request are gone, the room's uncounted intents are cancelled, nothing else changes |
| `CleanupAnswers.UntrackedRoomIsLeftAlone` | services/lifecycle_recovery.py:434-437 | a room without a record is left alone, only the request goes |
| `Scheduler.NoDuplicates` | services/lifecycle_recovery.py:143-155 | a guild never stands in the rotation twice |
| `Scheduler.PicksWhenItCan` | services/lifecycle_recovery.py:143-155 | a call picks someone if and only if some guild is eligible |
| `Scheduler.PositionAfter` | services/lifecycle_recovery.py:149-154 | where every guild stands after a call, in every case |
| `Scheduler.BoundedWaiting` | services/lifecycle_recovery.py:143-155 | a guild at position p that is eligible in p + 1 successive calls is picked by one of them |
| `Scheduler.MixedQueuesCanStarve` | services/lifecycle_recovery.py:157-166 | over both queues that bound fails: a guild can be eligible in every join call and never be picked |
| `Scheduler.BoundedChances` | services/lifecycle_recovery.py:143-155 | over any calls of both queues, a guild at place p that is never passed over while it is not eligible is picked by its (p+1)-th eligible call |
| `Scheduler.AtMostThreeJoins` | services/lifecycle_recovery.py:160-172 | while a guild's cleanup stays due, at most three of its joins start before it |
| `Scheduler.Scheduler.Choose` | services/lifecycle_recovery.py:143-155 | the loops compute that rotation and pick; the row is due, of an unclaimed guild and the first due one of its guild, there is none exactly if no such row exists, and the guild is claimed |
| `Scheduler.Scheduler.StartTick` | services/lifecycle_recovery.py:157-172 | a join starts only within its three turns while cleanup is due; turns are counted and reset as stated; nothing starts only if no row is due in a free guild but joins that had their turns |
| `Handlers.LifecycleRecovery.EnqueueMember` | services/lifecycle_recovery.py:56-62 | enqueues, and counts exactly the overflows |
| `Handlers.LifecycleRecovery.CancelDeparture` | services/lifecycle_recovery.py:64-77 | arriving in the room of an own created, moved or blocked intent changes nothing; otherwise the request goes, exactly the member's prepared, created, moved and blocked intents are cancelled, their rooms have a cleanup of this leaver that is due now, and nothing else changes |
| `Handlers.LifecycleRecovery.CancelMemberRemoval` | services/lifecycle_recovery.py:79-86 | the same for a member who left the guild, without a leaver, and a blocked intent stays |
| `Handlers.LifecycleRecovery.AdoptLeftovers` | services/lifecycle_recovery.py:102-123 | of the intents whose owner waits for nothing, in guilds the bot sees: prepared ones are cancelled; created and moved ones with a room and a cached owner are cancelled and handed to the cleanups if the owner is elsewhere, and put the owner back in the queue, as far as it has space, if inside; everything else stays |
| `Handlers.LifecycleRecovery.Abandon` | services/lifecycle_recovery.py:225-230 | dequeues only the held revision and touches no intent the worker holds as sent or unresolved |
| `HandlerRuns.HandlerForgetsNothing` | services/lifecycle_recovery.py:64-86 | what a handler writes is a run of the protocol, and forgets no room if no worker step falls inside it |
| `Bot.YapHub.LoadRuntimeCache` | bot.py:167-176 | after a start the process remembers exactly the recorded rooms, and exactly the requests without a profile are gone |
| `Bot.YapHub.OnGuildRemove` | bot.py:333-337 | exactly the requests of that guild are gone |
| `Bot.YapHub.OnGuildChannelDelete` | bot.py:340-348 | a confirmed deletion drops a remembered room of that guild and closes its intents, and nothing else |
| `Bot.YapHub.ScheduleReconcile` | services/lifecycle_recovery.py:126-129 | every tracked room gets a cleanup that is due at once, every other cleanup stays |
| `Bot.YapHub.OnVoiceStateUpdate` | bot.py:351-402 | mute and camera changes and bots change nothing; a move into a lobby ends in its queue, a move elsewhere ends the request; every departure but the one into the own room cancels the member's prepared, created, moved and blocked intents and queues cleanup of their rooms; a remembered room that was left gets its cleanup; no request, intent or cleanup of anybody else changes |
| `ApiGate.LocalBackoff` | services/api_recovery.py:178-180 | 60 seconds, doubling, 900 from the fifth rejection on |
| `ApiGate.StepKeepsInv` | services/api_recovery.py:128-204 | every step of the gate keeps: a held probe means an existing restriction whose deadline has passed; disk never exceeds memory |
| `ApiGate.HeldProbeIsExpired` | services/api_recovery.py:128-153 | so whoever may clear a scope holds an expired one |
| `ApiGate.NeverOpensEarly` | services/api_recovery.py:128-190 | after a 429 of scope k seen at t, no request mapped to k passes before t + d while the process lives, d being the delay it names or else the local backoff of that rejection |
| `ApiGate.NeverOpensEarlyAfterSave` | storage.py:63-72 | nor before the saved deadline over any number of crashes and restarts, once the save has landed |
| `ApiGate.SingleProbe` | services/api_recovery.py:128-142 | while one task holds the probe of a scope, no other task passes that scope |
| `ApiGate.OnlyTheProbePassesGlobally` | services/api_recovery.py:138-140 | under a global restriction only the identity request passes, and only after the deadline |
| `GateRecovery.OpensExactlyOnTime` | services/api_recovery.py:128-190 | while nothing else happens, a request of a restricted scope passes exactly once the named delay is over |
| `GateRecovery.SuccessfulProbeReopens` | services/api_recovery.py:128-204 | a probe whose restrictions have run out passes, and once its success and its deletes are through exactly those restrictions are gone from memory, probes and disk, and every task passes |
| `GateRecovery.RejectionRoundTrip` | services/api_recovery.py:128-204 | so after a restriction, its delay and one successful probe the gate has the same scopes, probes and disk as before |
| `ProbeLeak.DeferredWithProbe` | services/api_recovery.py:130-142 | a deferred request leaves with the global probe if and only if it is the identity request, the global restriction is expired and unclaimed, and its own scope is restricted or probed by another task |
| `ProbeLeak.LeakIsReached` | services/api_recovery.py:130-142 | a run from a first start in which that happens |
| `ProbeLeak.LeakShutsEveryoneOut` | services/api_recovery.py:128-153 | and from then on, while its holder does nothing, no global 429 arrives and the process lives, no other task's request passes at all |
| `GateDurability.DiskIsMemory` | services/api_recovery.py:173-190 | with the lock free and no storage call lost, disk and memory hold the same scopes, deadlines, attempts and routes |
| `GateDurability.MemoryCoversDisk` | services/api_recovery.py:173-190 | even when calls are lost, memory is at least as closed as the disk |
| `GateDurability.RebuiltDeadlines` | services/api_recovery.py:106-111 | which scopes a rebuilt gate keeps closed, and that the old one never opened sooner |
| `GateDurability.PassesExactly` | services/api_recovery.py:128-142 | a request passes if and only if neither of its scopes is shut, lingering, probed by another task or reserved |
| `GateDurability.RebuiltGateAdmitsTheSameExactly` | services/api_recovery.py:106-142 | for any restored aliases, a gate rebuilt from the disk and the one that stopped decide alike if and only if the old one had no foreign probe, lingering deadline or alias to a shut bucket that decides alone, and the new one does not restore a shut bucket instead of an open one |
| `GateDurability.OnlyUnnamedRoutesAreForgotten` | services/api_recovery.py:288-290 | with no probe held, no lingering deadline and one record for each route, the difference is exactly a route that no record names, mapped to a shut bucket, which nothing global stops |
| `GateDurability.CrashKeepsClosedExactly` | services/api_recovery.py:187-190 | after a crash at any point a scope is closed if and only if the disk has a deadline ahead |
| `GateDurability.LostSaveOpensEarly` | services/api_recovery.py:187-190 | in a run from a first start, a failed save and a restart do open the gate early |
| `GateDurability.SharedBucketIsForgotten` | services/api_recovery.py:288-290 | an instance, from a first start: a second route of a restricted bucket passes after a restart |
| `ApiRecovery.RetryDelay` | services/api_recovery.py:39-58 | a usable delay is positive, exists exactly when header or body give one, is the header's if that gives one and else the body's |
| `ApiRecovery.ScopeOf` | services/api_recovery.py:164-172 | the whole API is restricted if and only if one mark of a resource limit is missing, else that bucket |
| `ApiRecovery.ApiRecovery.constructor` | services/api_recovery.py:106-111 | initialize rebuilds exactly the gate of the steps |
| `ApiRecovery.ApiRecovery.AdmitRequest` | services/api_recovery.py:128-142 | the loop over the two keys passes exactly when the gate does, then holds the probe of each known scope, and else names the wait of one of them or a second |
| `ApiRecovery.ApiRecovery.ObserveRejection` | services/api_recovery.py:164-190 | the scope is closed in memory until the delay is over, never earlier than before, with one more attempt, its route mapped and its probe gone, whether or not the save succeeds; the disk has it only if it lands |
| `ApiRecovery.ApiRecovery.ObserveSuccess` | services/api_recovery.py:197-204 | memory, probes and disk lose exactly the request's scopes that this task probes, up to the first failed delete; if that was all that was known of them, every task passes at once |
| `ApiRecovery.ApiRecovery.ReleaseProbe` | services/api_recovery.py:144-153 | each scope this task still probes is closed for another minute, in memory and, if the save lands, on disk, and is no longer probed, up to the first failed save |
| `Permissions.RestrictionIsComplete` | services/permissions.py:114-171 | after restricting, a non-administrator has the permission if and only if their own overwrite allows it, whatever their roles |
| `Permissions.WhoKeepsAccess` | services/permissions.py:114-171 | namely the bot, everyone wanted and not denied, and whoever had an allow of their own |
| `Permissions.RestrictThenLiftExactly` | services/permissions.py:114-216 | the exact condition, target by target, under which restricting and lifting gives back what was there |
| `Permissions.RestrictThenLiftIsIdentity` | services/permissions.py:114-216 | which holds for everyone but the bot in a room with @everyone unset, roles in sync, allows for permit holders only and denies for blocked members only |
| `Permissions.LiftDoesNotRestoreEveryone` | services/permissions.py:190 | @everyone comes back as it was only if it was unset |
| `Permissions.ChangesCommute` | services/permissions.py:242-306 | lock or unlock commutes with hide or unhide, whatever their plans |
| `Permissions.OtherAttributeKept` | services/permissions.py:114-216 | and leaves the other permission and everything else alone |
| `VoiceChannel.VoiceChannel.AllowedMembers` | services/permissions.py:157-166 | the deduplicated candidates that are not denied |
| `VoiceChannel.VoiceChannel.Restrict` | services/permissions.py:114-171 | for any lag of the cache and any failing write: a complete call does the whole restriction, no target is written twice, every prefix leaves each target as it was or as wanted, and @everyone is touched only once the bot has its allow |
| `VoiceChannel.VoiceChannel.Lift` | services/permissions.py:174-216 | the same for lifting |
| `VoiceChannel.SameUnderAnyLag` | services/permissions.py:135-171 | two complete restrictions that differ only in how the cache lags leave the same overwrites |
| `VoiceChannel.LiftedUnderAnyLag` | services/permissions.py:185-216 | and so do two lifts |
| `VoiceChannel.RestrictThenLift` | services/permissions.py:114-216 | whatever lagged in either call, a complete lock and unlock give a target back what it had exactly under the condition of RestrictThenLiftExactly |
| `VoiceChannel.CallsKeepBotSafe` | services/permissions.py:125-139 | no restriction or lift shuts the bot out on either permission, at any point of its writes and whichever fails |
| `VoiceChannel.VoiceChannel.Revoke` | services/permissions.py:219-239 | clears both permissions of one member and nothing else |
| `VoiceChannel.VoiceChannel.SetBoth` | services/permissions.py:274-298 | grants or denies both permissions of one member and nothing else |
| `VoiceChannel.VoiceChannel.IsRestricted` | services/permissions.py:309-314 | whether @everyone is denied |
| `RoomActions.ListsStayDisjoint` | services/room_actions.py:347-469 | no action, wherever it stops, puts a member on both lists |
| `RoomActions.ListsAreKept` | services/temp_channels.py:626-647 | over any locks, unlocks, hides, unhides, departures and list actions, each stopped anywhere, that meet the condition of AgreementKeptExactly: blocked members stay denied and permit holders allowed |
| `RoomActions.AgreementKeptExactly` | services/room_actions.py:331-466 | for each list action and each part at which it may stop, exactly when lists and overwrites still agree |
| `RoomActions.BotStaysExactly` | services/room_actions.py:379-466 | no event shuts the bot out of its room on either permission, except exactly an unpermit, unblock or kick that clears the bot's own overwrite while @everyone is denied |
| `RoomActions.BlockedNeverGetIn` | services/permissions.py:287-298 | a blocked member is out and a permit holder in, in every state of the room and with any roles |
| `RoomActions.ListsAfter` | services/room_actions.py:331-466 | however the parts of any actions interleave, a list ends with what its last part says |
| `RoomActions.OverlapContradictsExactly` | services/room_actions.py:360-435 | a permit and a block that overlap leave the member on both lists if and only if each adds after the other has removed |
| `RoomActions.OverlapContradicts` | services/room_actions.py:360-435 | an instance of it |
| `RoomActions.RoomAccess.Restrict` | services/room_actions.py:177-227 | after a complete lock or hide a non-administrator has the permission, for any roles, if and only if they are the bot, an occupant, cached owner or cached permit holder who is not blocked, or had an allow of their own; the other permission is untouched; and whatever fails, it is such an event of the room's life |
| `RoomActions.RoomAccess.Lift` | services/room_actions.py:197-252 | after a complete unlock or unhide @everyone is unset, a member loses only an allow no permit backs, a denied role has the category's value; it is such an event as well |
| `RoomActions.RoomAccess.Depart` | services/temp_channels.py:626-647 | a departing guest loses both permissions; the owner, anyone on a list and the bot keep theirs, and nobody else's change |
| `RoomActions.RoomAccess.Permit` | services/room_actions.py:347-366 | a complete permit lists and allows the member and removes the block; stopped at any await it is such an event; it refuses bots |
| `RoomActions.RoomAccess.Unpermit` | services/room_actions.py:379-388 | takes the member off the list and clears both permissions, nobody else's; so does kick once the member is disconnected |
| `RoomActions.RoomAccess.Block` | services/room_actions.py:401-435 | a complete block lists and denies the member and removes the permit; nothing is recorded without the deny; it refuses bots |
| `RoomActions.RoomAccess.Unblock` | services/room_actions.py:453-461 | takes the member off the list and clears both permissions, nobody else's |
| `LegacyRooms.StepKeepsInv` | services/temp_channels.py:155-670 | every step of creates, cleanups, reconcile passes, transfers and restarts keeps the older path's invariant |
| `LegacyPromises.StepKeepsKnownExactly` | services/temp_channels.py:34-68 | while every live room is recorded or in hand, a step keeps it so if and only if it is no restart with a live room in hand, no lost reply of a create, no refused rollback of a live room and no record over a live room of the owner |
| `LegacyPromises.EveryRoomBelongs` | services/temp_channels.py:34-68 | in every run without such a step, each live bot-made room is recorded or in the hands of the create that made it |
| `LegacyPromises.StepKeepsSingleExactly` | services/temp_channels.py:429-609 | what a create has found out about its owner's rooms stays true if and only if the step is no transfer to an owner whose create is past looking for that room |
| `LegacyPromises.OneRoomPerOwner` | services/temp_channels.py:429-609 | each owner has at most one room in every run without such a transfer, whatever is restarted, refused or lost |
| `LegacyPromises.NeverDisplaces` | storage.py:376-431 | in such a run insert or replace never replaces another row |
| `LegacyPromises.RecordedAreRemembered` | services/temp_channels.py:155-189 | in every run the remembered ids cover the recorded rooms, also while a reconcile pass replaces the set, but for a room whose create has recorded it and not yet come back to remember it |
| `LegacyPromises.DisplacesExactly` | storage.py:376-431 | insert or replace drops a row if and only if the owner has another one |
| `LegacyLosses.TransferGivesTwoExactly` | services/room_actions.py:102-117 | a transfer leads to an owner with two rooms, at once or in a continuation without another such transfer, if and only if the new owner's create is past looking for that room |
| `LegacyLosses.TransferLosesExactly` | services/room_actions.py:102-117 | it leads to a lost room, in a continuation without accidents, if and only if moreover the given room exists and the create may still record another one |
| `LegacyLosses.TransferLosesARoom` | services/room_actions.py:102-117 | a run from the start in which a live room is given away and displaced |
| `LegacyLosses.RestartLosesARoom` | services/temp_channels.py:498-541 | a run from the start in which a restart between create and record loses the room |
| `LegacyLosses.LostReplyLosesARoom` | services/temp_channels.py:497-523 | a run from the start in which a create whose reply is lost loses the room |
| `LegacyLosses.RefusedRollbackLosesARoom` | services/temp_channels.py:540-568 | a run from the start in which a failed record and a refused rollback lose the room |
| `LegacyOutcomes.OldRoomsAreDeletedEmpty` | services/temp_channels.py:309-345 | a create or a sweep comes to deleting a room only by looking into it and finding nobody |
| `LegacyOutcomes.RoomsEndOnlyBy` | services/temp_channels.py:34-68 | a room ends only on Discord's side, by its owner's create that deletes the old one or takes back the new one, or by a sweep |
| `LegacyOutcomes.OccupiedRoomBlocksTheCreate` | services/temp_channels.py:429-456 | an owner whose room is in use gets no other: nothing changes |
| `LegacyOutcomes.OccupiedRoomSurvivesTheSweep` | services/temp_channels.py:281-286 | a sweep that finds somebody inside changes nothing |
| `LegacyOutcomes.EmptyRoomIsSwept` | services/temp_channels.py:249-268 | a sweep of an empty room removes room, record and memory |
| `LegacyOutcomes.NewRoomIsServed` | services/temp_channels.py:497-580 | an undisturbed create makes, records and remembers one room |
| `LegacyOutcomes.FailedRecordIsUndone` | services/temp_channels.py:540-556 | a record that fails takes the new room back |
| `LegacyOutcomes.FailedMoveIsUndoneOrKept` | services/temp_channels.py:575-609 | a refused move takes room and record back, or keeps both if the delete is refused too |
| `LegacyOutcomes.PassRemembersTheRows` | services/temp_channels.py:155-189 | an undisturbed reconcile pass leaves exactly the recorded rooms remembered |
| `CreationLocks.SameOwnerSameLock` | services/temp_channels.py:351-368 | two creates of one owner always contend for the same lock, and an entry lives exactly while it is used |
| `Windows.PruningIsInvisible` | services/room_actions.py:30-40 | forgetting old renames changes no later answer |
| `Windows.NeverThreeInTheWindow` | services/room_actions.py:49-66 | calls that do not overlap never record three renames in ten minutes |
| `Windows.WaitingIsExact` | services/room_actions.py:38-39 | waiting the named time admits the next rename, waiting less does not |
| `Windows.RecordKeepsLimitExactly` | services/room_actions.py:49-66 | recording a rename keeps the limit if and only if a check at that very moment would still admit it |
| `Windows.OverlapBreaksTheLimit` | services/room_actions.py:49-66 | an instance: two overlapping calls break it |
| `Windows.RenameHistory.Check` | services/room_actions.py:30-40 | the pruned table answers as the full log would |
| `Windows.RenameHistory.Record` | services/room_actions.py:60 | and stays equivalent to it |
| `Windows.Metrics.Observe` | services/api_recovery.py:160-163 | the trimmed deque stays equivalent to the whole history |
| `Windows.Metrics.Count` | services/api_recovery.py:209-214 | metrics count what the whole history holds for the last 600 seconds |
| `Backoffs.CreateBackoff.Create` | services/create_backoff.py:31-89 | the pruned deadlines decide as all deadlines ever would |
| `Backoffs.NoCreateBeforeThePause` | services/create_backoff.py:35-73 | after a 429 no create of its scope is sent before the pause is over |
| `Backoffs.PauseIsExact` | services/create_backoff.py:35-73 | a 429 stops exactly the creates of its scope until the named pause, or a minute, is over; any other answer stops nothing |
| `Backoffs.LoginWithBackoff` | services/login_backoff.py:13-52 | after each attempt the deferral, the named delay or min(60 * 2^n, 900) for the n earlier 429s is slept, and how the loop ends |
| `Backoffs.BackoffIsCappedDoubling` | services/login_backoff.py:14-43 | the local pause is min(60 * 2^n, 900) |

## Left out

- ProtocolTheorems.NoRoomForgotten: is stated for runs without a stale handler write, because with one it is false; which writes are harmful is HandlerWriteForgetsExactly.
- LegacyPromises.EveryRoomBelongs: is stated for runs without a step that loses a room, because with each of them it is false; which steps those are is StepKeepsKnownExactly.
- LegacyPromises.OneRoomPerOwner: is stated for runs without a transfer to an owner whose create is past looking for that room, because with one it is false; exactly which transfers those are is TransferGivesTwoExactly. LegacyPromises.NeverDisplaces is stated likewise.
- RoomActions.ListsAreKept: is stated for list actions that meet the condition of AgreementKeptExactly and do not overlap, because with others it is false; overlapping parts are ListsAfter.
- GateDurability.OnlyUnnamedRoutesAreForgotten: leaves out held probes, lingering deadlines and routes that two records name, because they are further differences; RebuiltGateAdmitsTheSameExactly has them all.
- A storage call that outlives its caller: an interrupted attach commits before the phase write that follows it or not at all, and a lost save or delete of the gate lands at once or never, although its thread may still be running when the next call starts.
- A create of the older path whose reply is lost and that Discord carries out only later: there it is carried out by the time the bot gives up, or never.
- The scan's first half: it only enqueues members that sit in a lobby, and the protocol lets anyone be enqueued at any time.
- sorted(): guild ids are listed in an arbitrary order, so the results hold for every order of the ids.
- Panels, embeds, modals, command text, duplicate-room notices and the stats site: only sent, deferred or forbidden is kept of a panel.
- Telemetry other than the room_created count, diagnostics, logging, HMAC keys and the scrubbing of URLs.
- The configuration checks before a create (profile, category, permissions): one boolean.
- discord.py, aiohttp and SQLite internals, connection retries inside one request beyond the hooks before each transmission, wall-clock jumps and the rounding of floats.
- The parsing of header text: a Retry-After value is a number, a date, not finite or unusable.
- Profile and guild configuration records, migrations, backup, member cache and gateway readiness beyond the replies they cause.
- That work is ever finished when Discord always fails, and more than one worker process.
