# Verification of the participants and transfers services

This project models the two event-driven services of the repository - participants and transfers - with the parts of
the shared libraries that their behaviour rests on, and proves properties of the model over every run.

## What is modelled

- **The transfer protocol** (`Participants`, `Transfers`, `Protocol*`, `EventHandlers`). A transfer is prepared,
  reserved at the payer, acknowledged, fulfilled, committed at the payee and acknowledged. The two aggregates share no
  store; event handlers turn the events of one side into commands of the other. `Protocol.Run` is a machine over both
  stores and all topics that an adversary drives: any ingress request, any creation or snapshot of a participant, any
  message of any topic delivered at any time and as often as it likes, any stored transfer expiring, and any
  earlier version of a participant, or none, shown by a cache.
- **The code as it runs** (`ParticipantEntities`, `ParticipantRepos`, `ParticipantsAggregate`, `TransfersAggregate`).
  Entities, repositories and the two aggregates as objects that change in place, proved against the functions that the
  protocol uses, for repositories that hand out references and for ones that hand out copies.
- **Event sourcing** (`EventSourcing`, `Recovery`, `EventStore`, `PartialLoads`, `LossyCache`, `EventSourcedRuns`,
  `ParticipantsDeployment`, `ProtocolRecovery`). Replay, snapshots that overlap the log, the repository that fetches one
  aggregate's messages out of partitioned topics, fetches that end too early, a cache that loses entries over it, and the
  service that publishes to the very topics from which it loads.
- **Read sides** (`ParticipantReadSide`, `TransferReadSide`, `ProtocolReadSide`, `Redelivery`, `ReadSideRedelivery`). The
  projections into document collections, also when events are delivered again.
- **Fast forms** (`ParticipantCaches`, `DuplicateSets`, `TransferReferences`, `SnapshotOperator`, `Rebalance`). Cached
  repositories against a map, the sharded duplicate set against a flat one, references against copies, the snapshot
  operator's counters against the history, and the stream consumer's rebalance handling over all interleavings.

Decimals are exact: a number is a real, an infinity or not a number, as in the bignumber.js library for plus, minus and
comparisons. The two library functions of the fulfilment check - base64url decoding (section 5 of RFC 4648) and the
SHA-256 digest - are arbitrary functions.

## Hypotheses

- A consumer handles one command at a time per key, since it awaits its handler
  (`modules/libInfrastructure/src/rdkafka_consumer.ts:195-217`).
- Publishing and storing succeed, and no service stops in the middle of a command.
- Adding to the duplicate set answers true for a new id only, as Redis does.
- What is printed as text parses back to the same value.
- The producer puts all messages of one key into one partition.
- For conservation only: no participant command that moves funds is accepted twice, and whoever pays or is paid in the
  currency has a finite number for the position that commands move.  Anything else may be delivered again, as may a
  refused command.
- For the service over its own event store (`EventSourcedRuns`, `ParticipantsDeployment`): the broker ends no fetch too
  early, and a participant that is loaded from the event store was created with one POSITION account per currency.
- For the theorems of `LossyCache`, which leave open what the event store answers: such a participant, and an answer that
  ends where its log ends.  Fetches that skip and miss nothing answer like this in every run (`LossyCache.AllFetchedIsOk`); a
  fetch that the broker ends too early need not (`PartialLoads.PartlyRecoversExactly` says exactly when it does).

## Where the code and its documentation differ

- `fetchLast` is documented to give the last message when no offset is given; it gives the first
  (`modules/libInfrastructure/src/rdkafka_fetcher.ts:73-77`). Recovery holds for any snapshot, so this does no harm.
- A snapshot message is declared to carry the partition and offset of the last event it includes
  (`modules/libDomain/src/messages.ts:184-185`); the participants' snapshot never sets them, so a replay starts at the
  first event. `EventSourcing.SnapshotOverlap` shows why that is right.
- Without a snapshot the repository uses the snapshot's cached position on the events topic
  (`modules/libInfrastructure/src/eventsourcing_repo.ts:99-126`); `EventStore.LoadRecoversExactly` says when that is right.
- The offset cache is meant to hold the snapshot's offset, but the fetcher never sets one
  (`modules/libInfrastructure/src/eventsourcing_repo.ts:131-143`), so only the partition is kept;
  `EventStore.NotedOffsetsRecoverExactly` says what follows.
- A broker error while fetching is taken for an empty result, and an empty batch for the end of the topic
  (`modules/libInfrastructure/src/rdkafka_fetcher.ts:146-156`), so a load can miss messages without noticing. If it misses
  the events, the snapshot is taken for the participant as it is, and without a snapshot the participant counts as
  unknown (`PartialLoads.EventsMissedExactly`); if it misses the snapshot, the events alone may still be right
  (`PartialLoads.SnapshotMissedExactly`).
- A commit whose result is not a number is announced as done (`modules/participants/src/domain/participant_entity.ts:160-169`);
  `ProtocolFunds.CommitAcceptedExactly` says exactly when.
- A fulfilment that does not match sets RECEIVED_ERROR before it is refused; only a repository that hands out references
  keeps it (`modules/transfers/src/domain/transfer_entity.ts:145-154`).

## Model

| member | source | states |
|---|---|---|
| ProtocolConservation.Conservation | modules/participants/src/domain/participants_agg.ts:192-374 | In every run in which no command that moves funds is accepted twice, whatever else is delivered again, and whoever pays or is paid in the currency had a finite position to move at creation: all positions in it add up to their sum at creation plus what is reserved and not yet committed, and are back at their start when nothing is pending, also when payer and payee are the same |
| ProtocolConservation.ConservedExactly | modules/participants/src/domain/participants_agg.ts:192-374 | In every run in which no command that moves funds is accepted twice, this equation holds if and only if as much was reserved from participants without a finite position to move as was committed to such |
| ProtocolConservation.SingleDeliveryConserves | modules/participants/src/domain/participants_agg.ts:192-374 | In particular when each transfer event and each participant command is delivered at most once |
| ProtocolConservation.BooksDistinct | modules/participants/src/domain/participants_agg.ts:192-374 | When no command that moves funds is accepted twice, no reserve and no commit is booked twice, and each was booked by an action that executed its command |
| ProtocolConservation.DoubleEntry | modules/participants/src/domain/participants_agg.ts:192-374 | Under any redelivery, per participant and currency: its positions are those at creation plus its executed reserves as payer less its executed commits as payee; if the position that commands move was no finite number at creation, they are those at creation |
| ProtocolConservation.DoubleEntryOfGroup | modules/participants/src/domain/participants_agg.ts:192-374 | The same for any group of participants together, with the reserves and commits of those whose position was a finite number |
| ProtocolConservation.RedeliveryReservesTwice | modules/participants/src/domain/participants_agg.ts:192-283 | Why conservation needs that no command is accepted twice: the same reserve command accepted twice raises the payer's total by twice the amount |
| ProtocolConservation.AlwaysOnce | modules/participants/src/domain/participants_agg.ts:192-374 | With each transfer event and participant command delivered at most once, no command that moves funds is published, executed or booked twice |
| ProtocolConservation.PendingLedger | modules/participants/src/domain/participants_agg.ts:192-374 | What is pending is worth the reserves less the commits |
| ProtocolSafety.AlwaysBacked | modules/transfers/src/domain/transfers_agg.ts:38-251 | The inductive invariant over both stores and all topics: every event, command and stored transfer is backed by the accepted prepare of its id and by the reserve and commit it presupposes, in every run under loss, reordering, redelivery and expiry |
| ProtocolSafety.CommitsMatchReserves | modules/transfers/src/domain/transfers_agg.ts:133-206 | Every commit command in flight or executed was preceded by a successful reserve of the same id, payer, payee, currency and amount, whatever parties the fulfil request named |
| ProtocolSafety.StoredStatesAreSound | modules/transfers/src/domain/transfers_agg.ts:208-251 | A stored RESERVED transfer had its reserve executed; a COMMITTED one also its commit, and holds a fulfilment of 32 bytes that hashes to the condition given at prepare |
| ProtocolSafety.AnnouncedStatesAreSound | modules/transfers/src/domain/transfers_agg.ts:88-251 | The prepared and fulfilled announcements imply the executed reserve, and the executed commit, even after the stored transfer expired |
| ProtocolContents.AlwaysContents | modules/transfers/src/domain/transfers_agg.ts:38-251 | In every run each command, event and stored transfer has the endpoints, bodies, conditions and times of the created participants and injected requests that it stems from |
| ProtocolContents.StoredContents | modules/transfers/src/domain/transfer_entity.ts:121-154 | In every run a stored transfer has the terms, expiration, condition and body of an injected prepare request, and once fulfilled the fulfilment, completion time and body of one injected fulfil request for it |
| ProtocolContents.AnnouncedContents | modules/transfers/src/application/transferEvtHandler.ts:149-213 | In every run the prepared and fulfilled announcements carry the endpoints that payer and payee were created with, and the body of an injected prepare or fulfil request for that transfer |
| ProtocolOrder.AlwaysOrdered | modules/transfers/src/domain/transfers_agg.ts:38-251 | In every run the accept events of a transfer id are a prefix of prepare, reserved, fulfil, committed - so at most four, each at most once, in order - and the stored state has the rank of the last one |
| ProtocolOrder.SuccessRaisesRank | modules/transfers/src/domain/transfers_agg.ts:38-251 | An accepted command raises the rank of its transfer by exactly one and announces the new rank; a refused one announces none and keeps it |
| ProtocolOrder.AcceptedOnceAndInOrder | modules/transfers/src/domain/transfers_agg.ts:38-251 | Of two accept events of one transfer the later one has the higher rank, under any duplication, reordering and expiry |
| ProtocolProgress.TransferCanGoThrough | modules/transfers/src/domain/transfers_agg.ts:38-251 | From every state of every run, a transfer with a new id whose payer can reserve the amount, whose payee has the account and whose condition has a fulfilment has a schedule after which it is COMMITTED with that fulfilment, exactly one reserve and one commit of it were executed, and nothing else changed at participants or at other stored transfers |
| ProtocolFunds.AlwaysAnchored | modules/participants/src/domain/participants_agg.ts:82-374 | In every run each stored or ever cached state of a participant is its creation but for positions, and each of its accounts is capped |
| ProtocolFunds.PositionsStayCapped | modules/participants/src/domain/participant_entity.ts:145-183 | Over every run with redelivery: each position is strictly below the value of the first net debit cap of its account, or at most its value at creation; one that was no number stays none |
| ProtocolFunds.CommitAcceptedExactly | modules/participants/src/domain/participants_agg.ts:285-374 | Once a reserve succeeded, its commit is accepted in every later state if and only if the cache shows the payer, in whatever version, and refused as naming an invalid payer otherwise; accepted, it takes the amount off the payee's position exactly unless that position was no number at creation |
| ProtocolFunds.CommitAccepted | modules/participants/src/domain/participants_agg.ts:285-374 | A commit of a positive amount between participants with the accounts is accepted, and what it does to the position |
| ProtocolFunds.CommitCanMoveNothing | modules/participants/src/domain/participant_entity.ts:160-169 | A payee created with a position that is no number: its reserve and commit are both accepted and the commit moves nothing |
| ProtocolFunds.StaleCopiesAreHarmless | modules/participants/src/application/participantEvtHandler.ts:170-197 | A cached copy, however old, has the current partition, accounts, limits and endpoints, and every command decides on it as on the current state |
| EventHandlers.TransferEvtHandler.Handle | modules/transfers/src/application/transferEvtHandler.ts:149-213 | The transfers side publishes each gateway request as it is, each acknowledged reserve or commit with the transfer id and the endpoints of payer and payee of the event, and nothing for other events |
| EventHandlers.ParticipantEvtHandler.Handle | modules/participants/src/application/participantEvtHandler.ts:161-220 | The participants side publishes the reserve to the partition of the payer and the commit to that of the payee, on the terms of the event, and drops the event when that participant is unknown |
| Participants.FindPosition | modules/participants/src/domain/participant_entity.ts:106-111 | The first POSITION account of the currency, or none |
| Participants.CapIsFirst | modules/participants/src/domain/participant_entity.ts:121-128 | The cap is the value of the first limit of type NET_DEBIT_CAP, and there is none without such a limit |
| Participants.ReserveExactly | modules/participants/src/domain/participant_entity.ts:145-183 | A reservation succeeds if and only if the amount is a finite number above zero and the first POSITION account of the currency has a first net debit cap with a value and a position that is a number, and the exact sum of position and amount is strictly below that value |
| Participants.FundsErrors | modules/participants/src/domain/participant_entity.ts:145-183 | Which error each failing reservation and commit has: over the cap for an amount that is no positive number or does not fit, then the missing account, then the missing cap; a commit fails only without the account |
| Participants.ReserveOutcome | modules/participants/src/domain/participants_agg.ts:192-283 | A reserve is accepted if and only if both parties are known, the payee has an account and the payer can reserve; then one position of the payer grows by the amount and nothing else of it changes, and the event and the state event carry that position, the ids of the transfer, the partition of the payer and the endpoints of each party |
| Participants.ReserveRefusals | modules/participants/src/domain/participants_agg.ts:192-283 | Which event a refused reserve publishes and whom it names: payer unknown, payee unknown or without account, over the cap, payer without account or cap, in this order |
| Participants.CommitOutcome | modules/participants/src/domain/participants_agg.ts:285-374 | A commit is accepted if and only if both parties are known and have an account; then one position of the payee shrinks by the amount, or stays when no finite number, and the events carry it as for a reserve; otherwise whom the refusal names |
| Participants.OtherOutcomes | modules/participants/src/domain/participants_agg.ts:82-157 | A create is accepted exactly for an unknown id, with its event and state event; a snapshot is the participant as it is, or an error |
| Participants.AnsweredByOneEvent | modules/libDomain/src/base_es_aggregate.ts:185-262 | Every participant command is answered by exactly one event, but for snapshots, which go to a topic of their own and change nothing else; only the addressed participant is stored |
| Decimals.ComparisonsAreOrder | modules/participants/src/domain/participant_entity.ts:145-158 | The comparisons are the order of the real numbers with two infinities, false for what is no number |
| Decimals.SumsAreExact | modules/participants/src/domain/participant_entity.ts:145-183 | Sums and differences are exact, and no number exactly for no number or for infinities that cancel |
| Participants.WithPositionFrame | modules/participants/src/domain/participant_entity.ts:160-183 | Writing the position of the currency's account changes that position and nothing else |
| Participants.CommitUndoesReserve | modules/participants/src/domain/participant_entity.ts:160-183 | Committing what was reserved from the same participant restores it completely |
| Participants.StaleCounterparty | modules/participants/src/domain/participants_agg.ts:192-374 | Two copies of the counterparty that differ in positions only lead to the same outcome, event payloads included |
| ParticipantEntities.ParticipantEntity.GetAccount | modules/participants/src/domain/participant_entity.ts:106-111 | The loop finds the first POSITION account of the currency |
| ParticipantEntities.ParticipantEntity.GetLimitFromAccount | modules/participants/src/domain/participant_entity.ts:121-128 | The loop finds exactly the value of the first limit of type NET_DEBIT_CAP |
| ParticipantEntities.ParticipantEntity.HasAccount | modules/participants/src/domain/participant_entity.ts:130-132 | Whether there is a POSITION account of the currency |
| ParticipantEntities.ParticipantEntity.CanReserveFunds | modules/participants/src/domain/participant_entity.ts:145-158 | Allows, denies or throws exactly as the reservation's specification says |
| ParticipantEntities.ParticipantEntity.ReserveFunds | modules/participants/src/domain/participant_entity.ts:171-183 | Overwrites one position in place as the specification says, and writes nothing when it throws |
| ParticipantEntities.ParticipantEntity.CommitFunds | modules/participants/src/domain/participant_entity.ts:160-169 | The same for a commit, including the result that is no number and is not written |
| ParticipantEntities.ParticipantEntity.GetCurrentPosition | modules/participants/src/domain/participant_entity.ts:185-189 | The position of the currency's account, or the invalid account error |
| ParticipantEntities.ParticipantEntity.ExportState | modules/libDomain/src/base_entity.ts:58-61 | A new state object that shares the account list and reads the same |
| ParticipantRepos.ParticipantStateRepo.Load | modules/participants/src/infrastructure/inmemory_participant_repo.ts:58-63 | Null or what is stored under the id; the stored object itself from memory, fresh objects from Redis |
| ParticipantRepos.ParticipantStateRepo.Store | modules/participants/src/infrastructure/redis_participant_repo.ts:148-173 | Afterwards readers see the state under its id, every other participant as before, even if the entry had been written over through a reference |
| ParticipantsAggregate.ApplyPositionChanged | modules/participants/src/domain/participants_agg.ts:170-190 | The forEach overwrites every POSITION account of the currency in the list shared with the clone, and throws if there is none |
| ParticipantsAggregate.ApplyStateEvent | modules/libDomain/src/base_es_aggregate.ts:89-103 | Each applier turns the root into what the replay specification says, or throws where it fails |
| ParticipantsAggregate.ReplayFrom | modules/libDomain/src/base_es_aggregate.ts:144-160 | From an empty entity, the snapshot and then the events in order give the specified root, or throw |
| ParticipantsAggregate.ParticpantsAgg.Load | modules/libDomain/src/base_es_aggregate.ts:126-179 | The root is the cached participant or the one rebuilt from the event store, which also goes into the cache; nothing else changes |
| ParticipantsAggregate.ParticpantsAgg.ReserveInRoot | modules/participants/src/domain/participant_entity.ts:171-183 | Reserving in the loaded root leaves what readers see of every other participant, and of all of them when refused |
| ParticipantsAggregate.ParticpantsAgg.CommitInRoot | modules/participants/src/domain/participant_entity.ts:160-169 | The same for committing |
| ParticipantsAggregate.ParticpantsAgg.ProcessCreateParticipantCommand | modules/participants/src/domain/participants_agg.ts:82-157 | Duplicate or created, as specified, with a root of its own |
| ParticipantsAggregate.ParticpantsAgg.ProcessReserveFundsCommand | modules/participants/src/domain/participants_agg.ts:192-283 | Every branch of the reserve handler gives the specified events, result and root |
| ParticipantsAggregate.ParticpantsAgg.ProcessCommitFundsCommand | modules/participants/src/domain/participants_agg.ts:285-374 | Every branch of the commit handler gives the specified events, result and root |
| ParticipantsAggregate.ParticpantsAgg.ProcessParticipantStateSnapshotCommand | modules/participants/src/domain/participants_agg.ts:376-387 | A snapshot of the root, or the error when there is none |
| ParticipantsAggregate.ParticpantsAgg.CommitEvents | modules/libDomain/src/base_es_aggregate.ts:185-210 | Domain events and the state event go out, each to its topic |
| ParticipantsAggregate.ParticpantsAgg.ProcessCommand | modules/libDomain/src/base_es_aggregate.ts:222-262 | One command: store, events, state log, snapshots and result are those of the specification, for a repository that hands out references and for one that hands out copies |
| ParticipantsAggregate.ReferencesAgreeWithCopies | modules/libDomain/src/base_entity.ts:58-61 | For every sequence of commands and cache losses both kinds of repository end with the same participants and the same events, state events and snapshots, those specified for that sequence |
| ParticipantsAggregate.LossesShowExactly | modules/libDomain/src/base_es_aggregate.ts:126-179 | The aggregate over a cache that loses entries, for any answers of an event store that end where the logs end: it publishes and caches what the service does that forgets nothing, given the same commands with some counterparties not shown; given them with all counterparties shown, if and only if no command met a lost counterparty that it needed |
| ParticipantsAggregate.ParticpantsAgg.Run | modules/libDomain/src/base_es_aggregate.ts:222-262 | A command, or the loss of a cache entry, as specified |
| ParticipantRepos.ParticipantStateRepo.Remove | modules/participants/src/infrastructure/redis_participant_repo.ts:127-146 | The entry is gone and every other participant reads as before |
| ParticipantsAggregate.AggregateIsService | modules/libDomain/src/base_es_aggregate.ts:222-262 | With a cache that keeps everything the run of the aggregate equals a run of the service on the same commands with all counterparties shown, in its whole store, for participants with any accounts |
| TransfersAggregate.TransferEntity.PrepareTransfer | modules/transfers/src/domain/transfer_entity.ts:121-134 | Sets the request's data and RECEIVED_PREPARE and leaves the fulfilment fields |
| Transfers.PrepareOutcome | modules/transfers/src/domain/transfers_agg.ts:38-86 | A prepare is accepted exactly for a new id; the transfer then has the terms, expiration, condition and body of the request and nothing of a fulfilment |
| Transfers.AckReserveOutcome | modules/transfers/src/domain/transfers_agg.ts:88-131 | Accepted exactly in RECEIVED_PREPARE: only the state changes, and the event carries the prepare body and the endpoints of the command; otherwise which refusal |
| Transfers.FulfilOutcome | modules/transfers/src/domain/transfers_agg.ts:133-206 | Accepted exactly in RESERVED with 32 bytes that hash to the condition: fulfilment, completion time and body are those of the request and all else is as it was, also in the state event; otherwise which refusal, and what it leaves behind |
| Transfers.AckCommitOutcome | modules/transfers/src/domain/transfers_agg.ts:208-251 | Accepted exactly in RECEIVED_FULFIL: only the state changes, and the event carries the fulfil body and the endpoints of the command; otherwise which refusal |
| Transfers.AnsweredOnce | modules/libDomain/src/base_aggregate.ts:70-160 | Every transfer command is answered by exactly one event about its transfer, after all earlier ones; it stores nothing under another id, and a prepare, accepted or not, adds its id to the duplicate set |
| TransfersAggregate.TransferEntity.AcknowledgeTransferReserved | modules/transfers/src/domain/transfer_entity.ts:136-138 | Changes the internal state only |
| TransfersAggregate.TransferEntity.ValidateFulfilCondition | modules/transfers/src/domain/transfer_entity.ts:140-143 | Throws unless the fulfilment decodes to 32 bytes; true if and only if these hash to the condition |
| TransfersAggregate.TransferEntity.FulfilTransfer | modules/transfers/src/domain/transfer_entity.ts:145-154 | Succeeds if and only if the fulfilment fulfils the condition, and then fulfilment, completion time and body are those of the request and all else is as it was; a mismatch of 32 bytes leaves RECEIVED_ERROR behind, another length nothing |
| TransfersAggregate.TransferEntity.CommitTransfer | modules/transfers/src/domain/transfer_entity.ts:156-158 | Changes the internal state only |
| TransfersAggregate.TransferEntity.ExportState | modules/libDomain/src/base_entity.ts:58-61 | A new state object that reads the same |
| TransfersAggregate.TransferStateRepo.Load | modules/transfers/src/infrastructure/inmemory_transfer_repo.ts:24-32 | Null or what is stored under the id; the stored object itself from memory, a fresh one from Redis |
| TransfersAggregate.TransferStateRepo.Store | modules/transfers/src/infrastructure/redis_transfer_repo.ts:149-175 | Afterwards readers see the state under its id and every other transfer as before |
| TransfersAggregate.TransfersAgg.Load | modules/libDomain/src/base_aggregate.ts:113-133 | The root is what the repository shows under the id, the very object if it hands out references |
| TransfersAggregate.TransfersAgg.ProcessPrepareTransferCommand | modules/transfers/src/domain/transfers_agg.ts:38-86 | Accepted exactly for an id that is new to the duplicate set, with a root of its own |
| TransfersAggregate.TransfersAgg.ProcessAckPayerFundsReservedCommand | modules/transfers/src/domain/transfers_agg.ts:88-131 | Not found, wrong state or RESERVED, with the specified messages |
| TransfersAggregate.TransfersAgg.ProcessFulfilTransferCommand | modules/transfers/src/domain/transfers_agg.ts:133-206 | Not found, wrong state, failed condition or fulfilled as `Transfers.FulfilOutcome` says, with the specified messages; a leaked error state shows to readers of references only |
| TransfersAggregate.TransfersAgg.ProcessAckPayeeFundsReservedCommand | modules/transfers/src/domain/transfers_agg.ts:208-251 | Not found, wrong state or COMMITTED, with the specified messages |
| TransfersAggregate.TransfersAgg.Commit | modules/libDomain/src/base_aggregate.ts:143-160 | Everything recorded goes out in order, each message to its topic |
| TransfersAggregate.TransfersAgg.ProcessCommand | modules/libDomain/src/base_aggregate.ts:70-102 | One command: duplicate set, store, events, state log and result are those of the specification, for either kind of repository |
| TransferReferences.ReferencesAgreeExactly | modules/transfers/src/domain/transfer_entity.ts:145-154 | Over every sequence of commands, references and copies agree on a transfer and on all that was published about it if and only if no 32-byte fulfilment mismatched while it was RESERVED |
| TransfersAggregate.ReferencesDifferExactly | modules/transfers/src/domain/transfer_entity.ts:145-154 | The same of the two aggregates as the code runs them: each ends as specified for the commands, and they agree on exactly the transfers that nothing leaked into |
| TransferReferences.LeakedStaysInError | modules/transfers/src/domain/transfer_entity.ts:145-154 | With references, a transfer that such a fulfilment reached stays in RECEIVED_ERROR for good |
| TransferReferences.CopiesNeverInError | modules/transfers/src/domain/transfers_agg.ts:133-206 | With copies, no transfer is ever stored in RECEIVED_ERROR |
| EventSourcing.SetAllOverwrites | modules/participants/src/domain/participants_agg.ts:170-190 | Positions in events are absolute: after replaying the same events two states differ at most where no event wrote |
| EventSourcing.SnapshotOverlap | modules/libInfrastructure/src/eventsourcing_repo.ts:99-126 | A state after k changes, replayed over from any j <= k, is the state after all changes |
| EventSourcing.FirstIsAll | modules/participants/src/domain/participants_agg.ts:170-190 | With one POSITION account per currency, writing the first is writing all |
| EventSourcing.DecisionLogs | modules/participants/src/domain/participants_agg.ts:82-387 | What an accepted command logs is exactly the change it makes to its root |
| Recovery.AlwaysLogged | modules/libDomain/src/base_es_aggregate.ts:222-262 | In every run each log is a creation followed by changes to accounts it has, the stored participant is the whole log, and each snapshot a prefix of it |
| Recovery.StoreEqualsLog | modules/libDomain/src/base_es_aggregate.ts:105-107 | After every command, accepted or refused, the stored participant is what replaying its state events from nothing gives, given one POSITION account per currency |
| Recovery.RecoveryFromAnySnapshot | modules/libInfrastructure/src/eventsourcing_repo.ts:99-126 | Any snapshot of any run with the events from any j no later than it recovers the participant as stored at any later moment |
| Recovery.LogIsPrefix | modules/libDomain/src/base_es_aggregate.ts:185-210 | A participant's log is only appended to, and a stored participant is never removed |
| LossyCache.EvictionsShowExactly | modules/libDomain/src/base_es_aggregate.ts:126-179 | Over every run with cache losses and loads that end where the log ends: the same events, logs and snapshots go out and each cached entry is the one that would have been stored, if and only if no command met a lost counterparty that it needed |
| LossyCache.CachedRunIsService | modules/libDomain/src/base_es_aggregate.ts:126-179 | Over every such run, whether or not the losses show: it is a run of the service that forgets nothing on the same commands, each shown its counterparty as stored at that moment or not at all, so all results about runs of the service hold of it |
| LossyCache.CacheEqualsLog | modules/libDomain/src/base_es_aggregate.ts:105-107 | In every such run a cached entry is what replaying its state events from nothing gives |
| LossyCache.FetchedIsOk | modules/libInfrastructure/src/eventsourcing_repo.ts:99-126 | After any losses: what the repository loads from topics that hold what went out ends where the log ends, if a snapshot is found that says rightly where its events start, or no event is skipped |
| LossyCache.AllFetchedIsOk | modules/libInfrastructure/src/eventsourcing_repo.ts:99-126 | So in every run whose loads are fetched like this all loads are right, and the theorems on losses hold |
| EventSourcedRuns.AlwaysStored | modules/libInfrastructure/src/eventsourcing_repo.ts:88-149 | The service over its own topics, in every run and whatever caches lose: the topics hold for each participant what was published about it, and what the offset cache has or will have noted is the partition of a snapshot that is there |
| EventSourcedRuns.RunIsService | modules/libDomain/src/base_es_aggregate.ts:126-179 | In every such run, with no supposition on what is loaded: the service publishes and caches what one that forgets nothing publishes and stores, given the same commands with some counterparties not shown, and each participant loads as that one stores it |
| EventSourcedRuns.LossesShow | modules/libDomain/src/base_es_aggregate.ts:126-179 | In every such run losing entries shows if and only if some command met a lost counterparty that it needed |
| EventSourcedRuns.UniqueCreationsSuffice | modules/participants/src/domain/participants_agg.ts:82-157 | Reloaded participants have one POSITION account per currency when all create commands say so |
| ParticipantsDeployment.Serve | modules/libDomain/src/base_es_aggregate.ts:126-262 | Aggregate and event-sourcing repository as objects over shared topics: after any steps they are in the state of the specified run, so the two results before hold of what they publish and cache |
| ParticipantsDeployment.Perform | modules/libDomain/src/base_es_aggregate.ts:126-262 | One step: a command with its load and its publishing, the loss of a cache entry or of an offset, or a later write of an offset, as specified |
| LossyCache.MissingCopyShows | modules/participants/src/domain/participants_agg.ts:192-374 | For any root and counterparty, also the same participant: a funds command is decided differently without the copy of its counterparty if and only if its root exists, the payee has the account and - when they are the same participant - it gets to the cap or to the account; it is then refused as naming an invalid participant, and another event is published |
| LossyCache.RefreshTimingShowsExactly | modules/libDomain/src/base_es_aggregate.ts:162-171 | Refreshing the cache within the load or after the command gives the same, except exactly for a participant that is loaded from the event store, pays itself and has the account: with any commit, or with a reserve of no positive amount or against a net debit cap |
| LossyCache.PlainRunIsService | modules/libDomain/src/base_es_aggregate.ts:222-262 | The store that forgets nothing is a run of the participants service |
| ProtocolRecovery.ProtocolStoreEqualsLog | modules/libDomain/src/base_es_aggregate.ts:105-107 | In every run of the protocol, replay and read side give the stored participant |
| EventStore.AnyInterleaving | modules/libInfrastructure/src/rdkafka_fetcher.ts:84-203 | However the broker interleaves partitions, filtering by key gives the home partition's messages from the offset in order, or nothing when another partition was asked for |
| EventStore.Fetcher | modules/libInfrastructure/src/rdkafka_fetcher.ts:84-198 | However the broker delivers, a fetch returns the messages under the key that came before the first empty batch, in order, or the first of them, with the partition they came from; and nothing exactly if none came or an error came first, before an empty batch and before the one match wanted |
| EventStore.Consume | modules/libInfrastructure/src/rdkafka_fetcher.ts:142-196 | The consume loop: records without key or value or that do not parse are skipped, one match is enough if one is wanted, an empty batch ends it with what was kept, and an error that comes before gives up all of it |
| EventStore.EventSourcingStateRepo.Load | modules/libInfrastructure/src/eventsourcing_repo.ts:88-149 | Snapshot and events from the partitions and offsets that the offset cache and the snapshot give; the snapshot is missed, and the events are, exactly when none arrived under the key or an error ended that fetch; a snapshot found without a cached offset is to be noted, on a later turn, with its partition and no offset |
| EventStore.EventSourcingStateRepo.NextTick | modules/libInfrastructure/src/eventsourcing_repo.ts:131-143 | The later turn on which an offset is written |
| EventStore.SnapshotIsFrom | modules/libInfrastructure/src/eventsourcing_repo.ts:99-126 | The snapshot is the first one under the id from the cached partition and offset on, or of all |
| EventStore.EventsAreFrom | modules/libInfrastructure/src/eventsourcing_repo.ts:99-126 | The events are those from the partition and offset that the snapshot says, each with its default if unset; without a snapshot those from the cached position |
| EventStore.LoadRecoversExactly | modules/libInfrastructure/src/eventsourcing_repo.ts:99-126 | After any run, what is loaded rebuilds the stored participant if and only if a snapshot was found or no event was skipped |
| EventStore.NotedOffsetsRecoverExactly | modules/libInfrastructure/src/eventsourcing_repo.ts:131-143 | With the offsets that loads themselves note, this is: a snapshot was found, nothing was noted, or the aggregate has the same partition in both topics |
| PartialLoads.PartlyRecoversExactly | modules/libInfrastructure/src/rdkafka_fetcher.ts:142-156 | After any run and whatever the two fetches missed: what is loaded rebuilds the stored participant if and only if the creation was read or a snapshot found and, for each POSITION account of this start, the last position read - or else that of the start - is the last one of the log |
| PartialLoads.EventsMissedExactly | modules/libInfrastructure/src/rdkafka_fetcher.ts:146-150 | If the events are missed, a found snapshot becomes the participant as it is, rightly if and only if the log ends with its positions; without a snapshot the participant counts as unknown |
| PartialLoads.SnapshotMissedExactly | modules/libInfrastructure/src/eventsourcing_repo.ts:99-126 | If only the snapshot is missed, the events alone rebuild the stored participant if and only if the cached offset skips none of them |
| EventStore.CachedOffsetSkipsCreation | modules/libInfrastructure/src/eventsourcing_repo.ts:99-126 | The case where it does not: a noted snapshot is gone and the events are in another partition than it was |
| EventStore.UnsetFieldsStartInTime | modules/libDomain/src/messages.ts:180-190 | A snapshot that leaves its offset fields unset makes the replay start at the first event, which is in time |
| ParticipantReadSide.MongoDbReadsideParticipantRepo.Insert | modules/participants/src/infrastructure/mongodb_readside_participant_repo.ts:93-96 | Appends the document |
| ParticipantReadSide.MongoDbReadsideParticipantRepo.UpdatePosition | modules/participants/src/infrastructure/mongodb_readside_participant_repo.ts:99-105 | Of the first document with the id and an account in the currency, the first such account, of whatever type, gets the position, and nothing else changes; without one nothing does; reports success if and only if something changed |
| ParticipantReadSide.ParticipantStateEvtHandler.MessageHandler | modules/participants/src/application/participantStateEvtHandler.ts:111-182 | Each state event changes the collection as the projection says |
| ParticipantReadSide.AgreementIsUnambiguity | modules/participants/src/domain/participants_agg.ts:170-190 | Over all runs, replay of the log and read side give the stored participant if and only if at creation no account is written besides the first POSITION account of its currency, or it already holds the same position and that is no finite number; with finite positions: each POSITION account is the only one of its currency and no account of another type precedes it there |
| ProtocolReadSide.ProtocolAgreementIsUnambiguity | modules/participants/src/domain/participants_agg.ts:170-190 | The same over all runs of the protocol, in which a commit follows its reserve: replay and read side give the stored participant if and only if its accounts were clear at creation; with finite positions: unambiguous |
| ProtocolReadSide.OneTransferTellsApart | modules/participants/src/infrastructure/mongodb_readside_participant_repo.ts:99-105 | Otherwise a run of the protocol with one transfer of 1 or 2 that goes through to COMMITTED tells them apart |
| ParticipantReadSide.OneCommitTellsApart | modules/participants/src/infrastructure/mongodb_readside_participant_repo.ts:99-105 | Otherwise one commit of 1 or 2 after the creation already tells them apart |
| ParticipantReadSide.LoggedPosition | modules/participants/src/domain/participants_agg.ts:192-374 | What a command logs is the position it leaves in the first POSITION account, and none changes one that is no finite number |
| ParticipantReadSide.FindDocOfLog | modules/participants/src/application/participantStateEvtHandler.ts:149-182 | What the read side shows of a participant depends on that participant's state events alone |
| ParticipantReadSide.SettlementFirst | modules/participants/src/infrastructure/mongodb_readside_participant_repo.ts:99-105 | One POSITION account per currency is not enough: after a commit of 1 the read side has the new position on the settlement account listed first, store and replay on the POSITION account |
| ParticipantReadSide.TwoPositions | modules/participants/src/domain/participants_agg.ts:170-190 | Two POSITION accounts of a currency: after a commit of 1 replay has the new position on both, store and read side on the first |
| ParticipantReadSide.TwoFrozenPositions | modules/participants/src/domain/participants_agg.ts:170-190 | Two POSITION accounts whose positions are no numbers: all agree in every run |
| ParticipantReadSide.ReadSideEqualsStore | modules/participants/src/application/participantStateEvtHandler.ts:149-182 | In every run the read side has a document for exactly the stored participants; replay and read side both give the stored participant if its accounts were clear at creation |
| Redelivery.CaughtUp | modules/participants/src/application/participantStateEvtHandler.ts:149-182 | A consumer that begins again at any earlier message, any number of times: with absolute writes each register has, once the consumer is back where it got to, what reading each message once gives |
| ReadSideRedelivery.ReadSideCatchesUp | modules/participants/src/application/participantStateEvtHandler.ts:111-182 | So in every run of the service the participants read side then shows what it would had each event come once, although a creation that comes again inserts a second document |
| ReadSideRedelivery.RedeliveredEqualsStore | modules/participants/src/application/participantStateEvtHandler.ts:111-182 | With the whole log read like this it shows exactly the stored participants, each as stored if its accounts were clear at creation |
| ReadSideRedelivery.OlderPositionShows | modules/participants/src/application/participantStateEvtHandler.ts:165-182 | Until it has caught up it can show a position that was already written over |
| TransferReadSide.MongoDbReadsideTransferRepo.InsertTransferState | modules/transfers/src/infrastructure/mongodb_readside_transfer_repo.ts:95-98 | Appends the document |
| TransferReadSide.MongoDbReadsideTransferRepo.UpdateOne | modules/transfers/src/infrastructure/mongodb_readside_transfer_repo.ts:100-114 | Amends the first document of the id; reports success if and only if something changed |
| TransferReadSide.TransferStateEvtHandler.MessageHandler | modules/transfers/src/application/transferStateEvtHandler.ts:157-215 | Each state event changes the collection as the projection says |
| TransferReadSide.TransferReadSideEqualsStore | modules/transfers/src/application/transferStateEvtHandler.ts:157-215 | In every run the read side shows each stored transfer in all fields (the completion time once fulfilled), whatever expired or was redelivered; with references, RECEIVED_ERROR shows as RESERVED |
| ReadSideRedelivery.TransferReadSideCatchesUp | modules/transfers/src/application/transferStateEvtHandler.ts:157-215 | In every run of the protocol a transfers read side that begins again at any earlier events, any number of times, shows once it has caught up what it would had each event come once |
| ReadSideRedelivery.RedeliveredEqualsTransfers | modules/transfers/src/application/transferStateEvtHandler.ts:157-215 | With the whole log read like this it shows each stored transfer as it is |
| ParticipantCaches.CachedRedisParticipantStateRepo.LoadById | modules/participants/src/infrastructure/cachedredis_participant_repo.ts:110-141 | Memory, or else Redis, which then goes into memory |
| ParticipantCaches.CachedRedisParticipantStateRepo.StoreState | modules/participants/src/infrastructure/cachedredis_participant_repo.ts:168-206 | Memory always, Redis only when the id is not in memory |
| ParticipantCaches.CachedRedisParticipantStateRepo.RemoveById | modules/participants/src/infrastructure/cachedredis_participant_repo.ts:143-166 | Gone from both |
| ParticipantCaches.CachedPersistedRedisParticipantStateRepo.LoadById | modules/participants/src/infrastructure/cachedpersistedredis_participant_repo.ts:110-141 | Memory, or else Redis, which then goes into memory |
| ParticipantCaches.CachedPersistedRedisParticipantStateRepo.StoreState | modules/participants/src/infrastructure/cachedpersistedredis_participant_repo.ts:168-204 | Memory and Redis |
| ParticipantCaches.CachedPersistedRedisParticipantStateRepo.RemoveById | modules/participants/src/infrastructure/cachedpersistedredis_participant_repo.ts:143-166 | Gone from both |
| ParticipantCaches.CachesAnswerLikeAMap | modules/participants/src/infrastructure/cachedpersistedredis_participant_repo.ts:110-204 | From any content of Redis and over every sequence of operations both repositories answer like a map; the write-through one also across restarts, its memory being always in Redis |
| ParticipantCaches.RestartKeepsExactly | modules/participants/src/infrastructure/cachedredis_participant_repo.ts:110-206 | Without write-through, from any content of Redis and after any operations since the last restart: a restart keeps the answer for a participant if and only if the state last stored since its last removal is its state at first sight; the two answers are these two states |
| ParticipantCaches.FirstSightComesBack | modules/participants/src/infrastructure/cachedredis_participant_repo.ts:168-206 | Without write-through a second store is lost at a restart and the first one comes back |
| DuplicateSets.RedisDuplicateRepo.AddId | modules/libInfrastructure/src/redis_duplicate_repo.ts:89-104 | Adds, and answers whether the id was new |
| DuplicateSets.RedisDuplicateRepo.RemoveId | modules/libInfrastructure/src/redis_duplicate_repo.ts:123-138 | Removes, and answers whether the id was there |
| DuplicateSets.RedisDuplicateShardedRepo.AddId | modules/libInfrastructure/src/redis_duplicate_sharded_repo.ts:119-136 | Adds the id to the set under the set's key, an underscore and its first character, changes nothing else, and answers whether it was new there |
| DuplicateSets.RedisDuplicateShardedRepo.ExistsId | modules/libInfrastructure/src/redis_duplicate_sharded_repo.ts:138-155 | Whether the id is in that set |
| DuplicateSets.RedisDuplicateShardedRepo.RemoveId | modules/libInfrastructure/src/redis_duplicate_sharded_repo.ts:157-174 | Removes it from that set, changes nothing else, and answers whether it was there; an emptied shard is gone |
| DuplicateSets.RedisDuplicateShardedRepo.GetAll | modules/libInfrastructure/src/redis_duplicate_sharded_repo.ts:189-218 | The nested loops return exactly the ids under all keys that match, none twice; without sharding exactly the one set; for any key space |
| DuplicateSets.AddEach | modules/libInfrastructure/src/redis_duplicate_sharded_repo.ts:196-206 | The inner loop adds what is new and keeps what was there |
| DuplicateSets.StepInShard | modules/libInfrastructure/src/redis_duplicate_sharded_repo.ts:67-78 | Every operation reads and writes the id in the one set under the set's key, an underscore and its first character, or the set's key alone without sharding |
| DuplicateSets.ShardedRefinesFlat | modules/libInfrastructure/src/redis_duplicate_sharded_repo.ts:67-218 | From any key space and over every sequence of operations the sharded set answers like the flat one, the ids in their own shards are the flat set, and the ids astray under a foreign key that matches stay the same, whatever is added, removed or emptied |
| DuplicateSets.FlatIsLastAdded | modules/libInfrastructure/src/redis_duplicate_repo.ts:89-138 | After any operations an id is in the set if and only if the last of them that added or removed it was an addition, or none did and it was there at the start |
| DuplicateSets.ListedExactly | modules/libInfrastructure/src/redis_duplicate_sharded_repo.ts:189-218 | Over every sequence of operations listing gives the flat set if and only if there is no sharding or every id that was astray at the start is in that set; so always when no foreign key begins with the set's key |
| SnapshotOperator.ParticipantSnapshotOperator.constructor | modules/participants/src/application/participantSnapshotOperator.ts:71-96 | A start over what an earlier operator saved |
| SnapshotOperator.ParticipantSnapshotOperator.LoadState | modules/participants/src/application/participantSnapshotOperator.ts:167-178 | Saved entries override those in memory |
| SnapshotOperator.ParticipantSnapshotOperator.Execute | modules/participants/src/application/participantSnapshotOperator.ts:208-250 | The loop schedules exactly the due participants, in order |
| SnapshotOperator.ParticipantSnapshotOperator.MessageHandler | modules/participants/src/application/participantSnapshotOperator.ts:252-299 | One message, as specified |
| SnapshotOperator.SavedIsMemory | modules/participants/src/application/participantSnapshotOperator.ts:180-186 | After every history the saved state is the memory and loading it changes nothing |
| SnapshotOperator.RestartChangesNothing | modules/participants/src/application/participantSnapshotOperator.ts:167-186 | A restart between any two messages changes nothing |
| SnapshotOperator.CounterIsHistory | modules/participants/src/application/participantSnapshotOperator.ts:252-299 | For every history the operator knows exactly the participants it has seen; each counter is 10000 less the state events since the later of first sighting and last snapshot, each time that of this snapshot or 0 |
| SnapshotOperator.DueExactly | modules/participants/src/application/participantSnapshotOperator.ts:220-228 | The due participants are scheduled, each once, and no other |
| SnapshotOperator.DueInOrder | modules/participants/src/application/participantSnapshotOperator.ts:220-228 | In the order in which the participants were first seen |
| SnapshotOperator.ScheduledExactly | modules/participants/src/application/participantSnapshotOperator.ts:208-250 | For every history an execute step schedules a participant, once, if and only if it was seen and 10000 state events have passed since its count started or its last snapshot is an hour old |
| SnapshotOperator.NeverSnapshottedIsDue | modules/participants/src/application/participantSnapshotOperator.ts:220-228 | With the clock past one hour every seen participant without a snapshot is scheduled by every execute step |
| Rebalance.KafkaStreamConsumer.OnMessage | modules/libInfrastructure/src/kafka_stream_consumer.ts:232-262 | One delivery, parse error included, as specified |
| Rebalance.KafkaStreamConsumer.Finally | modules/libInfrastructure/src/kafka_stream_consumer.ts:264-297 | The handler settles: commit, or done with automatic commit |
| Rebalance.KafkaStreamConsumer.CommitCallback | modules/libInfrastructure/src/kafka_stream_consumer.ts:273-286 | The commit returns: done, and resumed unless a rebalance asked for a pause |
| Rebalance.KafkaStreamConsumer.Rebalancing | modules/libInfrastructure/src/kafka_stream_consumer.ts:116-131 | Callback at once, or a pause and a waiting loop |
| Rebalance.KafkaStreamConsumer.Turn | modules/libInfrastructure/src/kafka_stream_consumer.ts:131-146 | A turn of a waiting loop: nothing while processing, else resume and callback |
| Rebalance.AlwaysSound | modules/libInfrastructure/src/kafka_stream_consumer.ts:116-147 | In every interleaving the flags say what an onlooker sees: processing, paused, pause requested and the number of waiting rebalances |
| Rebalance.RunsAreOrderly | modules/libInfrastructure/src/kafka_stream_consumer.ts:116-147 | Over all interleavings: one message at a time, none between a rebalance that has to wait and the next callback of a waiting one, and callbacks of waiting ones between messages only |
| Rebalance.CallbacksBetweenMessages | modules/libInfrastructure/src/kafka_stream_consumer.ts:116-147 | With manual commit and an existing member no callback runs while a message is handled or its commit pending; otherwise it does exactly when the rebalance is not a member's or commits are automatic |
| Rebalance.PendingUntilReturned | modules/libInfrastructure/src/kafka_stream_consumer.ts:264-297 | With manual commit, in terms of the actions: from the delivery of a message until the first commit return after its handler first settled the commit is pending, no message starts or finishes and no member gets a callback |
| Rebalance.FinishedByCommit | modules/libInfrastructure/src/kafka_stream_consumer.ts:264-297 | That commit return is what finishes the message |
| Rebalance.FinishedByHandler | modules/libInfrastructure/src/kafka_stream_consumer.ts:264-297 | With automatic commit the first settling of its handler after the delivery does |
| Rebalance.RebalancesAnswered | modules/libInfrastructure/src/kafka_stream_consumer.ts:116-147 | Every rebalance waits if it is a member's and comes during a message with manual commit, and else gets its callback at once; a waiting one gets it at the first turn between messages |
| Rebalance.UnparsedFinishesAtOnce | modules/libInfrastructure/src/kafka_stream_consumer.ts:232-262 | A message that does not parse starts and finishes at once |
| Rebalance.StartsWhileWaitingExactly | modules/libInfrastructure/src/kafka_stream_consumer.ts:116-147 | Over all interleavings a message starts while a rebalance waits if and only if the last turn before it was the callback of one of several that were waiting |
| Rebalance.NoStartWhileOneWaits | modules/libInfrastructure/src/kafka_stream_consumer.ts:232-297 | From any moment when none waits, no message starts while a rebalance waits until two wait at once |
| Rebalance.OverlappingRebalances | modules/libInfrastructure/src/kafka_stream_consumer.ts:116-147 | With two overlapping rebalances a message starts after the first callback while the second still waits |
| Rebalance.NeverLeftPaused | modules/libInfrastructure/src/kafka_stream_consumer.ts:232-297 | The stream is never left paused: idle and paused, a waiting rebalance's next turn resumes it |

## Left out

- Kafka, Redis and Mongo clients, configuration, logging, metrics and tracing: stores are maps, sets and logs.
- Timeouts, aborts and un-reserving: the repository lists them as to be done.
- Failed publishing or storing, and stops in the middle of a command: the code guarantees nothing there.
- Reason texts, timestamps, versions and message ids; request headers and bodies are opaque values.
- Participants with missing account, endpoint or limit lists: a participant always has its lists, possibly empty.
- Expired records in the fetcher's topics: a record's offset is its index.
- The operator's record of the last timer run, which nothing reads; its clock is read once per message.
- The in-memory duplicate repository, which never reports a duplicate.
- The aliasing of objects that the two cached participant repositories hand out: there participants are values.
- SnapshotOperator.ParticipantSnapshotOperator.constructor: leaves out the start-up list of participants from the cache,
  which takes prefixed keys for ids.
- ParticipantsAggregate.ParticpantsAgg.Load: the refresh of the cache is part of the load, not of a later turn of the event
  loop; `LossyCache.RefreshTimingShowsExactly` says when that makes a difference.
- ParticipantEntities.ParticipantEntity.ExportState: the accounts of a state are one list object that clones share; the
  single account objects in that list are values, so two lists never share an account.
- ProtocolConservation.Conservation: needs that no command that moves funds is accepted twice, and finite positions of those
  who pay or are paid; `RedeliveryReservesTwice` shows why the first is needed, `ConservedExactly` says what stands for the
  second, and `DoubleEntry` holds without either.
- LossyCache.EvictionsShowExactly: supposes of a participant that is loaded from the event store one POSITION account per
  currency at creation, without which replay differs as in `ParticipantReadSide.TwoPositions`, and that what was read ends
  where its log ends. `LossyCache.AllFetchedIsOk` and `EventSourcedRuns.RunIsService` derive the second from what the
  repository fetches; without it `PartialLoads.PartlyRecoversExactly` says that the load is wrong.
- EventStore.LoadRecoversExactly: a snapshot that says where its events start is supposed to say so correctly;
  `PartialLoads.PartlyRecoversExactly` does without.
- Removal of transfers, which no command handler calls.
- The HTTP and broker adapters, command-line tools and test helpers.
