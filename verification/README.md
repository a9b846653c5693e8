# Meridian Kafka adapter: a verified model

A Dafny model of the Kafka adapter of Meridian storage, and proofs about it. `dafny verify dfyconfig.toml` checks all of it.

The adapter delivers records to the members of a consumer group, takes their acknowledgements in any order, commits only the
contiguous *safe* offset of each partition, rewinds after negative acknowledgements and timeouts, and can put
acknowledgements and publishes into one Kafka transaction that several sessions compete for. Beside that it reads finite
ranges page by page, signs the tokens that it hands to callers, replays keyed publishes from a bounded cache and probes the
broker's protocol versions.

## How it is organised

Code that changes things in place is modelled twice: as a class whose methods do what the source does, and as functions on
values that say what those methods compute. Each method is tied to its function by its `ensures`; the theorems are about the
functions and about runs of them. A session takes its objects exactly where `Runtime.Next` takes the runtime, and a poll is a
run of its steps.

| file | what it holds |
|---|---|
| `Basics.dfy` | options, bytes and text |
| `ConsumerGroup.dfy` | the state of a group as a value, its transitions, the invariant that all of them keep |
| `AckOrder.dfy` | the drain against a simple ledger, order of acknowledgements, monotone commits, the price of a failed commit |
| `Attempts.dfy`, `TokenLife.dfy` | attempts and their counters; which delivery tokens are still accepted |
| `Transactions.dfy` | the transaction bridge as a value |
| `Durability.dfy` | one group beside the broker: its log, its committed offsets, and what was resolved so far |
| `Runtime.dfy` | all groups, the bridge and all sessions; one step for each call, callback or broker event |
| `RuntimeSafety.dfy`, `DurableRuns.dfy` | mutual exclusion, durable at-least-once, atomic consume-publish over every run |
| `SafeOffsets.dfy` | where the safe position of a live group may stand |
| `CommittedOffsets.dfy` | what each step commits, and when the committed offset can go down |
| `Visibility.dfy` | which published events become visible, and when |
| `SessionRules.dfy`, `CallAnswers.dfy` | which calls a session refuses, and what the answers of calls mean |
| `Redelivery.dfy` | which records a state can see again, and when a partition can no longer move on |
| `Rejection.dfy`, `ClientPosition.dfy` | what rejections, rebalances and set positions leave to the client |
| `RoutingLimits.dfy` | what happens when calls are routed badly, and exactly when it goes wrong |
| `Counterexamples.dfy` | runs of a newly opened runtime in which each of these things goes wrong |
| `Engine.dfy`, `Sessions.dfy`, `Polling.dfy` | the objects: bridge, group state, consumer engine, session, poll loop |
| `GroupPosition.dfy` | setting the position of a group by compare-and-set |
| `RangeReader.dfy`, `RangePaging.dfy`, `RangeCalls.dfy` | one page, following the cursors from page to page, and both told by what was given and answered |
| `Base64Url.dfy`, `Positions.dfy`, `Tokens.dfy` | canonical base64url, printed position maps, signed tokens |
| `Idempotency.dfy` | the producer's replay cache |
| `ApiVersions.dfy` | the version probe |

## What is assumed of the environment

- The log of a partition is append-only, retention may remove records, offsets may have gaps, and a record that decodes is
  delivered as decodable. A client fetches on from its fetch position without passing over a record that decodes
  (`Durability.NextMessage`).
- A new assignment starts at the committed offset. Where there is none it starts where the reset policy puts it, past no
  retained record since the partition was first started (`Durability.StartsAllowed`). The reset to the latest offset breaks
  this; `RoutingLimits.LaterStartIff` says when that loses a record.
- A commit that raises was not applied. Telemetry does not raise. Each engine or session call is one atomic step.
- Another member of the group may commit for a partition that is not assigned here, but only past records that it resolved
  (`Durability.PeerAllowed`). `SafeOffsets` alone assumes that this engine is the only one to commit.
- A consumer group has one subscription and one stream, so a group is named by one key.
- The keyed hash is an arbitrary function with digests of 32 bytes; the fingerprint hash and the topic hash have no
  collisions; the JSON codec reads back what it wrote, with the members of an object in any order.

## What the proofs found

Each of these is a lemma. Where the code is wrong on some inputs only there are two: one with the exact condition, and one
with a run that meets it.

- The run of acknowledged offsets is drained before the commit is known to succeed and is not put back. A retry then commits
  one offset, and the others of the run are forgotten (`AckOrder.FailedCommitCostsIff`). Nothing is lost at the broker.
- The safe position passes only offsets that were resolved, so an offset that is never delivered holds it for ever
  (`AckOrder.NothingSkipped`).
- The attempt counter runs ahead of a delivery in flight iff the same offset comes again and no token can be made for it
  (`Attempts.ApplyInStep`, `Attempts.CounterCanRunAhead`).
- Token identity repeats. A state accepts an acknowledgement iff it issued that very token itself and the delivery has not
  left since (`TokenLife.AcknowledgedIff`), so a token of an earlier state is accepted once its successor has issued the same
  one (`TokenLife.RecoveredStateAcceptsOldToken`). Inside one state a later delivery issues the same token again iff there was
  no rebalance or set position in between and the offset has been counted, since it was last resolved or revoked, as often as
  before (`TokenLife.IssuedIff`, `TokenLife.ReissuedIff`, `TokenLife.TokenRepeatsWithinState`).
- A negative acknowledgement does not compare the epoch of the delivery. It also accepts a token that this state never issued
  (`TokenLife.NegativelyAcknowledgedIff`, `TokenLife.UnissuedTokenAccepted`).
- A direct acknowledgement or a dead letter can commit past offsets that another session has acknowledged only inside its open
  transaction. If that then rolls back, fails to commit or is closed, they are lost (`RoutingLimits.MixedRoutesIff`,
  `Counterexamples.MixedRoutesLose`).
- Closing a client can raise while the touched groups are recovered. The groups that were not reached keep what was
  acknowledged inside the aborted transaction (`RoutingLimits.LeftBehindIff`, `RoutingLimits.LeftByOwnIff`,
  `Counterexamples.InterruptedRecoveryLoses`).
- When a consume-publish of its own has staged its offset, cannot make its position token, and the abort raises too, nothing
  is recovered at all (`RoutingLimits.AbortedProgressSurvivesIff`, `Counterexamples.StrandedProgressLoses`).
- A consume-publish that fails inside the transaction of its caller leaves its outputs, and sometimes its acknowledgement, to
  the commit of that transaction (`RoutingLimits.FailedInnerCommitsIff`). It also drops the group and makes the session forget
  that it touched it, so that direct acknowledgements and staged offsets can mix. The committed offset can then go down in two
  ways: the transaction commits less than was acknowledged directly (`Counterexamples.CommitCanLower`), or it commits more than
  the new state of the group has reached and an ordinary acknowledgement takes that back
  (`Counterexamples.AcknowledgementCanLower`). `CommittedOffsets.LowersIff` says of every step when it lowers, and
  `CommittedOffsets.CommittedNeverFalls` that without such a drop, a set position or another member nothing does.
- Setting the position of a group whose offsets an open transaction has staged is undone by the commit of that transaction
  (`RoutingLimits.RepositionOverriddenIff`, `Counterexamples.OverriddenPositionLoses`).
- A partition without a committed offset that is started again further on can lose what lies between
  (`RoutingLimits.LaterStartIff`, `Counterexamples.LatestResetLoses`).
- The outputs of a committed consume-publish can be published twice. The same state delivers the record again iff its fetch
  position, something in flight or something paused in the partition lies at or before it, wherever the committed offset is
  (`Redelivery.CanSeeIff`, `Counterexamples.OutputsCanRepeatInPlace`). A new state does iff the committed offset is not past the
  record, as when the acknowledgement did not advance the safe position (`Redelivery.NewStateSeesIff`,
  `Redelivery.PublishedAgainIff`, `Counterexamples.OutputsCanRepeat`).
- A revoke keeps the safe position. If another member commits further before the partition comes back, the state starts past its
  safe position, never advances there again and commits nothing more for the partition until a position is set
  (`Redelivery.StuckForever`, `Counterexamples.PartitionCanBlock`).
- A rejection takes its delivery out of flight before it seeks. If the seek raises, the record comes again only if something
  else in the partition lies at or before it (`Rejection.FailedRejectionIff`, `Rejection.RejectedCanStrand`).
- A partition rests for one record only: a second rejection with a delay makes the first record due at once
  (`Rejection.StepHeldIff`, `Rejection.DelayCanBeForgotten`).
- Setting the position does not seek the client. Until the next assignment the state delivers what it would have delivered
  anyway, and a partition that was set back behind its fetch position advances no more (`ClientPosition.SetPositionSeesIff`,
  `ClientPosition.SetBackIsStuck`, `ClientPosition.SetBackCanStrand`).
- Retention alone can make a compare-and-set conflict, where a partition has no committed offset
  (`GroupPosition.RetentionConflictsIff`).
- A dead letter that was written but whose delivery could not be acknowledged cannot be written again: its key is the same, its
  data has another time, and the producer answers with a conflict until enough other keys were accepted
  (`Idempotency.LetterRetryRefused`).
- A range cursor moves past records that are not on its page iff the loop takes an answer at or past the end of its partition.
  The end is explicit, or a watermark that the log outgrows during the read (`RangePaging.PageResumesIff`,
  `RangePaging.CursorCanLose`).
- The check of the payload size after decoding a token can never fire (`Tokens.PayloadNeverTooLarge`).

That a record comes again within one session is a matter of what the caller and the clock do: a negative acknowledgement seeks
to its own offset and can jump over an earlier one. What is proved is that the state can still come to the record
(`Rejection.RejectedComesBack`) and that it is never committed away.

## Model

| member | source | states |
|---|---|---|
| `ConsumerGroup.DrainMeaning` | src/meridian_storage/adapters/kafka/consumer/__init__.py:168-175 | the drain stops at the first offset that is not acknowledged and removes exactly the run before it |
| `ConsumerGroup.DeliverSound` | src/meridian_storage/adapters/kafka/consumer/__init__.py:449-495 | a message, however it is handled, keeps the state invariant |
| `ConsumerGroup.AckSound` | src/meridian_storage/adapters/kafka/consumer/__init__.py:141-214 | an acknowledgement keeps it, whether the commit succeeds or fails |
| `ConsumerGroup.NackSound` | src/meridian_storage/adapters/kafka/consumer/__init__.py:216-291 | a negative acknowledgement keeps it on every path, the dead letter included |
| `ConsumerGroup.RewindSound` | src/meridian_storage/adapters/kafka/consumer/__init__.py:507-528 | the rewind of expired deliveries keeps it |
| `ConsumerGroup.RevokedSound` | src/meridian_storage/adapters/kafka/consumer/__init__.py:409-434 | losing partitions keeps it |
| `ConsumerGroup.ApplySound` | src/meridian_storage/adapters/kafka/consumer/__init__.py:141-528 | every transition keeps it: attempts and epochs in flight within bounds, a safe position for each partition in flight, and the safe position never itself pending |
| `ConsumerGroup.ExecSound` | src/meridian_storage/adapters/kafka/consumer/__init__.py:63-74 | so does every run |
| `Attempts.ApplyInStep` | src/meridian_storage/adapters/kafka/consumer/__init__.py:463-486 | the attempt in flight equals the counter after every transition, except iff an offset in flight is counted again and gets no token |
| `Attempts.ExecInStep` | src/meridian_storage/adapters/kafka/consumer/__init__.py:463-486 | over every run without that exception they stay equal |
| `Attempts.CounterCanRunAhead` | src/meridian_storage/adapters/kafka/consumer/__init__.py:463-486 | a run in which the exception happens |
| `AckOrder.LeastMeaning` | src/meridian_storage/adapters/kafka/consumer/__init__.py:168-175 | what the drain finds is the least offset at or above the safe position that is not in the set, and only that |
| `AckOrder.AckOffsetsClosed` | src/meridian_storage/adapters/kafka/consumer/__init__.py:168-188 | acknowledging offsets one by one ends where one pass over their union ends |
| `AckOrder.AckOrderIrrelevant` | src/meridian_storage/adapters/kafka/consumer/__init__.py:168-188 | any two orders of the same offsets end at the same safe position with the same pending set |
| `AckOrder.PermutedAcksAgree` | src/meridian_storage/adapters/kafka/consumer/__init__.py:141-214 | any two orders of acknowledging the same deliveries, over all partitions, agree on what is committed, in flight and pending |
| `AckOrder.AckRefines` | src/meridian_storage/adapters/kafka/consumer/__init__.py:168-199 | one acknowledgement does to the state what it does to a ledger of remembered acknowledgements, failed commits included |
| `AckOrder.ExecRefines` | src/meridian_storage/adapters/kafka/consumer/__init__.py:141-528 | over every run with rewinds, rebalances, failed commits and set positions, the safe position is the least offset from its base that is not remembered |
| `AckOrder.CommitsIncrease` | src/meridian_storage/adapters/kafka/consumer/__init__.py:169-197 | between two set positions the offsets committed or staged for a partition strictly increase |
| `AckOrder.NothingSkipped` | src/meridian_storage/adapters/kafka/consumer/__init__.py:168-199 | the safe position never passes an offset that no operation resolved |
| `AckOrder.FailedCommitCostsIff` | src/meridian_storage/adapters/kafka/consumer/__init__.py:168-188 | after a failed commit a retry ends where a first success would have iff the next offset was not acknowledged yet |
| `TokenLife.RunFate` | src/meridian_storage/adapters/kafka/consumer/__init__.py:463-486 | what is known of a token at any later point of a run |
| `TokenLife.StaleTokensRejected` | src/meridian_storage/adapters/kafka/consumer/__init__.py:155-167 | a token that is still accepted was issued after the last rebalance or set position, and names the latest delivery of its offset unless that was resolved since |
| `TokenLife.InFlightIff` | src/meridian_storage/adapters/kafka/consumer/__init__.py:463-486 | in flight are exactly the deliveries that the state itself issued and that have not left |
| `TokenLife.AcknowledgedIff` | src/meridian_storage/adapters/kafka/consumer/__init__.py:155-167 | an acknowledgement accepts a token iff this state issued it, its delivery has not left, and the epoch is the same |
| `TokenLife.NegativelyAcknowledgedIff` | src/meridian_storage/adapters/kafka/consumer/__init__.py:225-230 | a negative acknowledgement accepts a token of the current epoch iff this state issued one for that attempt in any epoch |
| `TokenLife.RecoveredStateAcceptsOldToken` | src/meridian_storage/adapters/kafka/consumer/__init__.py:293-300 | a token acknowledged in one state is accepted by the state that replaces it |
| `TokenLife.UnissuedTokenAccepted` | src/meridian_storage/adapters/kafka/consumer/__init__.py:225-230 | a run whose state accepts a token it never issued, for a negative acknowledgement only |
| `TokenLife.IssuedIff` | src/meridian_storage/adapters/kafka/consumer/__init__.py:463-486 | over every run, a delivery issues the token with the number of rebalances and set positions so far as its epoch and, as its attempt, one more than the messages of the offset that were counted since it was last resolved or revoked |
| `TokenLife.ReissuedIff` | src/meridian_storage/adapters/kafka/consumer/__init__.py:463-486 | at any later delivery of its offset a token is issued again iff both counts are what they were |
| `TokenLife.TokenRepeatsWithinState` | src/meridian_storage/adapters/kafka/consumer/__init__.py:198-199 | a run in which one state issues a token twice |
| `Rejection.ScheduledEffect` | src/meridian_storage/adapters/kafka/consumer/__init__.py:265-291 | a rejection that is to come again takes the delivery out of flight and the client back to it, rests the partition there until the delay is over iff one was asked for, and changes nothing else |
| `Rejection.RejectedComesBack` | src/meridian_storage/adapters/kafka/consumer/__init__.py:265-291 | before the next assignment the state can deliver the rejected record |
| `Rejection.NotBeforeDue` | src/meridian_storage/adapters/kafka/consumer/__init__.py:271-277 | over every run, no message of it is handed out before the delay is over, unless the rest is lifted on the way |
| `Rejection.StepHeldIff` | src/meridian_storage/adapters/kafka/consumer/__init__.py:456-462 | what lifts the rest of a partition: the record once it is due, a resume, a revoke, or a delayed rejection of another delivery |
| `Rejection.HandedIff` | src/meridian_storage/adapters/kafka/consumer/__init__.py:449-486 | a message is handed out iff it can be decoded and given a token and is not held at that time |
| `Rejection.EarlyEffect` | src/meridian_storage/adapters/kafka/consumer/__init__.py:456-462 | a message of a held record that comes too early counts for nothing and sends the client back to it, or past it if the seek raises |
| `Rejection.DelayCanBeForgotten` | src/meridian_storage/adapters/kafka/consumer/__init__.py:271-277 | after a second delayed rejection in the partition the first record is handed out at once |
| `Rejection.FailedRejectionIff` | src/meridian_storage/adapters/kafka/consumer/__init__.py:265-281 | a rejection whose seek or pause raised has lost the delivery; the record comes again iff the seek went through or something else lies at or before it |
| `Rejection.RejectedCanStrand` | src/meridian_storage/adapters/kafka/consumer/__init__.py:265-281 | a run after which the state cannot deliver the record again |
| `Rejection.LetterIff` | src/meridian_storage/adapters/kafka/consumer/__init__.py:231-234 | over every run, a rejection goes to the dead-letter stream, if there is one, iff the messages of the offset counted since it was last resolved or revoked have reached the permitted number |
| `Rejection.LetterEffect` | src/meridian_storage/adapters/kafka/consumer/__init__.py:235-264 | the source is acknowledged only behind a letter that was written in time, and then as an acknowledgement would do it |
| `ClientPosition.OwnedIff` | src/meridian_storage/adapters/kafka/consumer/__init__.py:396-415 | over every run the state owns what the last assignment named and no revoke has taken since |
| `ClientPosition.NoMessageAfterRevoke` | src/meridian_storage/adapters/kafka/consumer/__init__.py:409-434 | after a revoke no message comes before the next assignment or seek |
| `ClientPosition.AssignedSeesIff` | src/meridian_storage/adapters/kafka/consumer/__init__.py:396-407 | after an assignment a record of a partition with nothing in flight or resting is delivered iff the partition is named and starts at or before it |
| `ClientPosition.SetPositionSeesIff` | src/meridian_storage/adapters/kafka/consumer/__init__.py:339-358 | after a set position the state delivers a record iff it fetched or rested at or before it, whatever the target |
| `ClientPosition.SetBackIsStuck` | src/meridian_storage/adapters/kafka/consumer/__init__.py:339-358 | a partition set back behind its fetch position delivers nothing from the target to there, keeps its safe position and commits nothing, over every run until it is assigned further back or set again |
| `ClientPosition.SetBackCanStrand` | src/meridian_storage/adapters/kafka/consumer/__init__.py:339-358 | a run that acknowledges a record, sets the position back to it, and can never deliver it again before an assignment |
| `Transactions.StageKeepsBridge` | src/meridian_storage/adapters/kafka/transactions/__init__.py:72-91 | staging keeps the bridge in order, never lowers a staged offset and never mixes groups |
| `Transactions.FirstGroupPins` | src/meridian_storage/adapters/kafka/transactions/__init__.py:72-91 | the first group that is staged for, even in vain, is the only one of its transaction |
| `Durability.DrainReaches` | src/meridian_storage/adapters/kafka/consumer/__init__.py:168-188 | draining passes only records that are known to be resolved |
| `Durability.DirectAckKept` | src/meridian_storage/adapters/kafka/consumer/__init__.py:141-214 | a direct acknowledgement commits only past resolved records |
| `Durability.NackKept` | src/meridian_storage/adapters/kafka/consumer/__init__.py:216-291 | so does a dead letter, and a release commits nothing |
| `Durability.TxAckKept` | src/meridian_storage/adapters/kafka/consumer/__init__.py:189-197 | an acknowledgement through the bridge leans on the open transaction only |
| `Durability.TxCommittedKept` | src/meridian_storage/adapters/kafka/transactions/__init__.py:93-120 | a commit makes what was staged durable |
| `Durability.TxAbortedKept` | src/meridian_storage/adapters/kafka/transactions/__init__.py:122-136 | an abort is harmless once the states that leaned on it are dropped |
| `Durability.RepositionedKept` | src/meridian_storage/adapters/kafka/consumer/__init__.py:312-358 | setting the position starts the account anew |
| `RuntimeSafety.NextExclusive` | src/meridian_storage/adapters/kafka/runtime.py:265-342 | every step, on every success and failure path, keeps lease, active bridge and the one active session together |
| `RuntimeSafety.MutualExclusion` | src/meridian_storage/adapters/kafka/transactions/__init__.py:53-149 | over every interleaving the lease is held iff the bridge is active iff exactly one session is, and staged offsets belong to one group |
| `RuntimeSafety.ConsumePublishKept` | src/meridian_storage/adapters/kafka/runtime.py:432-465 | a consume-publish leaves no group leaning on a transaction that is gone, on every path on which the recovery reaches the groups that were acknowledged in |
| `RuntimeSafety.NextKept` | src/meridian_storage/adapters/kafka/runtime.py:344-430 | every allowed and properly routed step keeps every group in order |
| `RuntimeSafety.RunGood` | src/meridian_storage/adapters/kafka/runtime.py:258-488 | so does every such run |
| `DurableRuns.RunHonest` | src/meridian_storage/adapters/kafka/runtime.py:258-488 | what is recorded as resolved was resolved by the run, and what is pending is pending in its open transaction |
| `DurableRuns.DurableAtLeastOnce` | src/meridian_storage/adapters/kafka/consumer/__init__.py:141-300 | in every run, each retained record below a committed offset and not below the initial position, the first start of its partition or the last set position, was acknowledged directly, in a committed transaction, or written to the dead-letter stream, since then |
| `DurableRuns.NoAbortedProgress` | src/meridian_storage/adapters/kafka/runtime.py:313-342 | in every run, each record below the safe position of a live group was resolved for good, or is pending in the open transaction and its group will be recovered |
| `DurableRuns.ConsumePublishAtomic` | src/meridian_storage/adapters/kafka/runtime.py:432-465 | a consume-publish that owns its transaction shows all its outputs together with the offset it staged, if it staged one, or shows nothing and changes no committed offset |
| `Visibility.VisibleIs` | src/meridian_storage/adapters/kafka/producer/__init__.py:48-120 | over every run, visible is exactly what was published outside a transaction or in a consume-publish of its own that committed, and with each commit what its session published inside since the transaction began, in that order |
| `Visibility.CommitShows` | src/meridian_storage/adapters/kafka/runtime.py:313-324 | a commit that goes through shows exactly what the session published since its begin, in order |
| `Visibility.VisibleWasReleased` | src/meridian_storage/adapters/kafka/transactions/__init__.py:93-136 | every visible event was published by a step outside a transaction, or inside one that stayed open until its commit |
| `Visibility.FailedEndShowsNothing` | src/meridian_storage/adapters/kafka/runtime.py:313-342 | a rollback, a close and a failed commit show nothing, empty the transaction and leave every committed offset |
| `Visibility.VisibleOnlyGrows` | src/meridian_storage/adapters/kafka/transactions/__init__.py:93-136 | nothing that is visible goes away |
| `SessionRules.RefusedChangesNothing` | src/meridian_storage/adapters/kafka/runtime.py:265-298 | the calls that a session refuses, and that they change nothing |
| `SessionRules.RunProper` | src/meridian_storage/adapters/kafka/runtime.py:265-298 | over every run only transactional sessions that are open are active |
| `SessionRules.ClosedForGood` | src/meridian_storage/adapters/kafka/runtime.py:337-342 | a closed session stays closed, and no call of it does anything |
| `SessionRules.PositionOpens` | src/meridian_storage/adapters/kafka/consumer/__init__.py:312-358 | a set position opens the state of the group; when it goes through the group and the broker stand at the target, with nothing in flight or acknowledged, and when not nothing changes |
| `CallAnswers.AckAnswer` | src/meridian_storage/adapters/kafka/consumer/__init__.py:155-188 | over every run, which answer an acknowledgement gets: conflict iff the epoch is another, rejected iff the delivery is not held, failed iff an advance cannot be committed |
| `CallAnswers.NackAnswer` | src/meridian_storage/adapters/kafka/consumer/__init__.py:225-230 | the same of a negative acknowledgement, which takes deliveries of any epoch |
| `CallAnswers.MessageAnswer` | src/meridian_storage/adapters/kafka/consumer/__init__.py:449-486 | which messages are held back, undecodable or without a token, and which of them count as attempts |
| `CallAnswers.BeginAnswer` | src/meridian_storage/adapters/kafka/transactions/__init__.py:53-70 | over every run, a begin times out iff some session is in a transaction |
| `CallAnswers.ConsumePublishAnswer` | src/meridian_storage/adapters/kafka/runtime.py:432-465 | a consume-publish is told done iff it went through and its own transaction, if any, committed, and refused iff it could not run or had no transaction |
| `CallAnswers.AnswerIsEffect` | src/meridian_storage/adapters/kafka/runtime.py:432-465 | outside a transaction, done means that the outputs are visible and the record is resolved, and any other answer that nothing is visible or committed |
| `Redelivery.NothingBefore` | src/meridian_storage/adapters/kafka/consumer/__init__.py:396-407 | a state that has nothing of a partition before an offset, and whose assignments start at or after it, never sees a message before it, through rewinds, rejections and resumes |
| `Redelivery.CanSeeIff` | src/meridian_storage/adapters/kafka/consumer/__init__.py:216-291 | before the next assignment some run of the state delivers a retained record iff its fetch position, something in flight or something paused in the partition lies at or before it |
| `Redelivery.NewStateSeesIff` | src/meridian_storage/adapters/kafka/consumer/__init__.py:396-407 | a new state that is assigned at the committed offset can deliver a retained record iff that offset is not past it |
| `Redelivery.PublishedAgainIff` | src/meridian_storage/adapters/kafka/runtime.py:432-465 | after a committed consume-publish the same state can deliver its record again iff it has something at or before it, and the committed offset is past the record iff the acknowledgement advanced the safe position or it was past it already |
| `Redelivery.StuckForever` | src/meridian_storage/adapters/kafka/consumer/__init__.py:409-434 | a state that has come back to a partition past its own safe position keeps that and commits nothing for the partition, over every run without a set position |
| `SafeOffsets.SafeIsAccountedFor` | src/meridian_storage/adapters/kafka/runtime.py:313-342 | the safe position of a live group is at its start, or committed, or not past what the active transaction has staged, and then that has touched the group; failed consume-publishes inside it included |
| `SafeOffsets.NothingAbortedRemains` | src/meridian_storage/adapters/kafka/runtime.py:460-488 | with no transaction open, as after a rollback or a failed commit, no live group stands past both its start and the committed offset |
| `SafeOffsets.NextMoves` | src/meridian_storage/adapters/kafka/runtime.py:258-488 | what every step of the runtime can do to the safe position, the committed and the staged offset of a partition |
| `RoutingLimits.MixedRoutesIff` | src/meridian_storage/adapters/kafka/consumer/__init__.py:176-197 | a direct acknowledgement or dead letter beside an open transaction that then rolls back, fails to commit or is closed loses nothing iff its commit passes over no record that was acknowledged only inside that transaction |
| `RoutingLimits.LeftBehindIff` | src/meridian_storage/adapters/kafka/runtime.py:485-488 | the same condition decides when a rollback, a failed commit or a close comes first and its recovery did not reach the group |
| `RoutingLimits.LeftByOwnIff` | src/meridian_storage/adapters/kafka/runtime.py:460-465 | and when it was a failed consume-publish in a transaction of its own |
| `Counterexamples.MixedRoutesLose` | src/meridian_storage/adapters/kafka/consumer/__init__.py:176-197 | a run with such a loss |
| `Counterexamples.InterruptedRecoveryLoses` | src/meridian_storage/adapters/kafka/runtime.py:485-488 | a run in which closing the client of another group raises and a record is lost |
| `RoutingLimits.AbortedProgressSurvivesIff` | src/meridian_storage/adapters/kafka/runtime.py:460-463 | a failed consume-publish that had advanced the safe position keeps its group state iff the recovery does not reach it, and there is none when position token and abort both failed |
| `Counterexamples.StrandedProgressLoses` | src/meridian_storage/adapters/kafka/runtime.py:460-463 | a run in which that loses a record |
| `RoutingLimits.FailedInnerCommitsIff` | src/meridian_storage/adapters/kafka/runtime.py:460-465 | what a consume-publish that failed inside its caller's transaction leaves to the commit: the outputs it produced, and its acknowledgement iff only the position token was missing |
| `CommittedOffsets.SetsExactly` | src/meridian_storage/adapters/kafka/consumer/__init__.py:176-199 | every step of the runtime makes the broker commit exactly the offsets that `Sets` tells from the state before it, and leaves the others of the group |
| `CommittedOffsets.LowersIff` | src/meridian_storage/adapters/kafka/transactions/__init__.py:93-120 | a step lowers the committed offset of a partition iff it sets a lower position, another member commits lower, it commits a lower staged offset, or it acknowledges in a state that is brought to a safe position behind the committed offset |
| `CommittedOffsets.CommittedNeverFalls` | src/meridian_storage/adapters/kafka/consumer/__init__.py:169-197 | in every routed run without another member, a set position, or a group dropped while something is staged for it, the committed offset never goes down |
| `Counterexamples.CommitCanLower` | src/meridian_storage/adapters/kafka/runtime.py:460-465 | a properly routed run in which the commit takes the broker back from offset 2 to 1, past the live group |
| `Counterexamples.AcknowledgementCanLower` | src/meridian_storage/adapters/kafka/runtime.py:460-465 | a properly routed run in which an ordinary acknowledgement, with no transaction open, takes the broker back from offset 2 to 1 |
| `RoutingLimits.RepositionOverriddenIff` | src/meridian_storage/adapters/kafka/consumer/__init__.py:312-358 | a position set beside staged offsets is overridden by their commit, and stays durable iff no record lies between |
| `Counterexamples.OverriddenPositionLoses` | src/meridian_storage/adapters/kafka/consumer/__init__.py:312-358 | a run in which that loses a record |
| `RoutingLimits.LaterStartIff` | src/meridian_storage/adapters/kafka/consumer/__init__.py:396-407 | a partition that is started again past its first start, and acknowledged there, is durable iff every retained record between the two starts was resolved |
| `Counterexamples.LatestResetLoses` | src/meridian_storage/adapters/kafka/consumer/__init__.py:396-407 | a run in which the reset to the latest offset loses a record |
| `Counterexamples.OutputsCanRepeat` | src/meridian_storage/adapters/kafka/runtime.py:432-465 | a run in which a committed output is published a second time after a recovery |
| `Counterexamples.OutputsCanRepeatInPlace` | src/meridian_storage/adapters/kafka/runtime.py:432-465 | a run in which the same state publishes it a second time although the committed offset is past its record |
| `Counterexamples.PartitionCanBlock` | src/meridian_storage/adapters/kafka/consumer/__init__.py:409-434 | a run that ends in such a blocked partition |
| `Engine.TransactionBridge.Begin` | src/meridian_storage/adapters/kafka/transactions/__init__.py:53-70 | takes the lease or fails; a begin that raises gives it back |
| `Engine.TransactionBridge.StageOffset` | src/meridian_storage/adapters/kafka/transactions/__init__.py:72-91 | stages for one group only and keeps the higher offset |
| `Engine.TransactionBridge.Commit` | src/meridian_storage/adapters/kafka/transactions/__init__.py:93-120 | sends exactly the staged offsets iff nothing raised, and ends idle either way |
| `Engine.TransactionBridge.Abort` | src/meridian_storage/adapters/kafka/transactions/__init__.py:122-149 | ends idle |
| `Engine.GroupState.Deliver` | src/meridian_storage/adapters/kafka/consumer/__init__.py:449-495 | the delivery and the new state are those of the value-level transition, with a seek that raises while a delivery is held back |
| `Engine.GroupState.Acknowledge` | src/meridian_storage/adapters/kafka/consumer/__init__.py:141-214 | the outcome, the new state, what the broker commits and what the bridge stages, for both routes, and whether the call answers |
| `Engine.GroupState.DrainFrom` | src/meridian_storage/adapters/kafka/consumer/__init__.py:168-175 | the loop computes the drain |
| `Engine.GroupState.NegativeAcknowledge` | src/meridian_storage/adapters/kafka/consumer/__init__.py:216-291 | outcome and new state on every path, with a token that expires while the dead letter is written; `Rejection` says what they mean |
| `Engine.GroupState.ExpireInflight` | src/meridian_storage/adapters/kafka/consumer/__init__.py:507-528 | finds the least expired offsets and rewinds to them, or the part of them before a seek raised |
| `Engine.GroupState.LeastExpiredOffsets` | src/meridian_storage/adapters/kafka/consumer/__init__.py:509-514 | per partition the least expired offset, and no other partition |
| `Engine.GroupState.ResumeDue` | src/meridian_storage/adapters/kafka/consumer/__init__.py:497-505 | resumes exactly the paused partitions that are due, or the part of them before a seek or a resume raised |
| `Engine.GroupState.OnAssigned` | src/meridian_storage/adapters/kafka/consumer/__init__.py:396-407 | a new epoch and the assigned partitions |
| `Engine.GroupState.OnRevoked` | src/meridian_storage/adapters/kafka/consumer/__init__.py:409-434 | a new epoch, and everything of the revoked partitions forgotten except their safe position |
| `Engine.ExpiryRewinds` | src/meridian_storage/adapters/kafka/consumer/__init__.py:507-528 | after the pass nothing is expired, each affected partition has nothing in flight or acknowledged at or after its new fetch position, entries that stay are the same, and everything else is unchanged |
| `Engine.LeastExpiredUnique` | src/meridian_storage/adapters/kafka/consumer/__init__.py:509-514 | the targets of the pass are determined by the state |
| `Engine.RewindOneMore` | src/meridian_storage/adapters/kafka/consumer/__init__.py:515-524 | rewinding partition by partition, in any order, is rewinding all at once |
| `Sessions.ConsumerEngine.State` | src/meridian_storage/adapters/kafka/consumer/__init__.py:383-395 | the state of a group, created on first use, as the step `Joined` does |
| `Sessions.ConsumerEngine.Recover` | src/meridian_storage/adapters/kafka/consumer/__init__.py:293-300 | drops that state and no other |
| `Sessions.ConsumerEngine.RecoverAll` | src/meridian_storage/adapters/kafka/runtime.py:485-488 | drops the touched groups, up to one whose client cannot be closed |
| `Sessions.AdapterSession.Begin` | src/meridian_storage/adapters/kafka/runtime.py:265-273 | takes the session where the step `Began` takes the runtime |
| `Sessions.AdapterSession.Commit` | src/meridian_storage/adapters/kafka/runtime.py:313-324 | takes session, bridge and group states where the step `Committed` takes the runtime, and sends exactly the staged offsets iff nothing raised |
| `Sessions.AdapterSession.Rollback` | src/meridian_storage/adapters/kafka/runtime.py:326-335 | the same for `RolledBack`, with a recovery that may be interrupted; `Visibility.FailedEndShowsNothing` says what becomes of the events |
| `Sessions.AdapterSession.Close` | src/meridian_storage/adapters/kafka/runtime.py:337-342 | the same for `Closed`: an open transaction is rolled back first, and the session stays open if that raises |
| `Sessions.AdapterSession.Acknowledge` | src/meridian_storage/adapters/kafka/runtime.py:375-378 | the same for `Acknowledged`: the group is touched before it is acknowledged through the bridge |
| `Sessions.AdapterSession.ConsumePublish` | src/meridian_storage/adapters/kafka/runtime.py:432-465 | the same for `ConsumedAndPublished`, for every combination of answers, with what the caller is told and what becomes visible |
| `Polling.Poll` | src/meridian_storage/adapters/kafka/consumer/__init__.py:97-139 | a poll is a run of rounds, each an expiry pass to the least expired offsets, a resume pass over what is due, and the callbacks and the message of one client poll, and each with room for more; no round before the last raised, came too late or, where nobody waits, found the client silent; the call fails iff a call of its last round raised, and else returns exactly what was handed out, at the limit, after such a round, or when the rounds are used up |
| `Polling.RoundHandsIff` | src/meridian_storage/adapters/kafka/consumer/__init__.py:117-129 | a round hands out a delivery iff it polled, the answer is a message, and that is neither held back nor raises; it is a delivery of that message, in flight until its timeout |
| `Polling.RoundLeavesNoneDue` | src/meridian_storage/adapters/kafka/consumer/__init__.py:497-505 | the resume pass seeks and resumes only what is due and, unless a call raised, leaves nothing that is due |
| `Polling.CallbacksMeaning` | src/meridian_storage/adapters/kafka/consumer/__init__.py:396-434 | the callbacks of a poll reach the state one by one, in order |
| `Polling.PollIsRun` | src/meridian_storage/adapters/kafka/consumer/__init__.py:97-139 | the operations of a poll are a run of runtime steps that takes the group where the poll takes it and leaves the others alone |
| `Polling.ExpiryEnabled` | src/meridian_storage/adapters/kafka/consumer/__init__.py:103-106 | the expiry pass of each round is a step that the runtime allows |
| `Polling.RoundLeavesNoneExpired` | src/meridian_storage/adapters/kafka/consumer/__init__.py:103-106 | past the expiry pass of a round nothing in flight is expired at its time |
| `GroupPosition.Reposition` | src/meridian_storage/adapters/kafka/consumer/__init__.py:312-358 | succeeds iff the fingerprint of the committed positions is the expected one, the target names every partition within the watermarks and the commit goes through; then the group stands at the target, and else nothing changed |
| `GroupPosition.Vet` | src/meridian_storage/adapters/kafka/consumer/__init__.py:322-338 | the checks before the commit, each refusal with its reason |
| `GroupPosition.CheckRetained` | src/meridian_storage/adapters/kafka/consumer/__init__.py:598-610 | lets exactly the targets within the watermarks through |
| `GroupPosition.MovedPositions` | src/meridian_storage/adapters/kafka/consumer/__init__.py:576-595 | after the commit the group stands at the target in every partition |
| `GroupPosition.ExpectedPositions` | src/meridian_storage/adapters/kafka/consumer/__init__.py:312-330 | the fingerprint matches iff the positions are those behind it |
| `GroupPosition.RepositionTwice` | src/meridian_storage/adapters/kafka/consumer/__init__.py:312-358 | of two calls with one fingerprint the second conflicts iff the first, having gone through, changed something |
| `GroupPosition.StandsAt` | src/meridian_storage/adapters/kafka/consumer/__init__.py:576-595 | a group stands at its committed offsets, and at the low watermark where it has none |
| `GroupPosition.RetentionConflictsIff` | src/meridian_storage/adapters/kafka/consumer/__init__.py:586-595 | with the same committed offsets the fingerprint changes iff the low watermark of a partition without one moves |
| `GroupPosition.CursorRetained` | src/meridian_storage/adapters/kafka/consumer/__init__.py:598-610 | a group can be set to where a page of a range read ends |
| `GroupPosition.WatermarksRetained` | src/meridian_storage/adapters/kafka/consumer/__init__.py:598-610 | both watermarks of a partition are permitted targets, and nothing beyond them is |
| `RangeReader.FirstFaultMeaning` | src/meridian_storage/adapters/kafka/consumer/__init__.py:647-670 | exactly the reads whose bounds lie in order within the watermarks are let through |
| `RangeReader.Read` | src/meridian_storage/adapters/kafka/consumer/__init__.py:628-733 | for every interleaving, deadline, end marker and growth of the log, the page holds per partition and in order exactly the visible records from the start to the lesser of position and end, at most the limit in all, and is truncated iff some partition is below its end |
| `RangeReader.Collect` | src/meridian_storage/adapters/kafka/consumer/__init__.py:677-710 | the loop computes what `Reading` says of the answers |
| `RangeReader.ReadingExact` | src/meridian_storage/adapters/kafka/consumer/__init__.py:677-710 | whatever the answers, the page of `Reading` is exact |
| `RangeCalls.BoundMeaning` | src/meridian_storage/adapters/kafka/consumer/__init__.py:647-659 | a bound that is not given is the watermark, partition by partition |
| `RangeCalls.RefusalMeaning` | src/meridian_storage/adapters/kafka/consumer/__init__.py:632-670 | which refusal each read gets: too many partitions, else the first partition out of order decides and how, else an unknown partition |
| `RangeCalls.ReadingMeaning` | src/meridian_storage/adapters/kafka/consumer/__init__.py:677-710 | the loop takes answers until the page is full, all is read, they are used up, or the client fails or a record of the page cannot be decoded, each with its own error; the page holds what was taken below the ends |
| `RangeCalls.AfterMeaning` | src/meridian_storage/adapters/kafka/consumer/__init__.py:687-704 | the cursor stands at the furthest position that the start or an answer tells |
| `RangeCalls.ReadPageOk` | src/meridian_storage/adapters/kafka/consumer/__init__.py:628-733 | a page that a read without an end returns is exact between its start and the high watermarks |
| `RangeCalls.ReadsComplete` | src/meridian_storage/adapters/kafka/consumer/__init__.py:628-733 | reading on from cursor to cursor without start and end until a page is not truncated gives every visible record between the watermarks, in order and exactly once |
| `RangePaging.PagingExact` | src/meridian_storage/adapters/kafka/consumer/__init__.py:640-710 | any sequence of pages holds each record up to where it stands exactly once |
| `RangePaging.PagingComplete` | src/meridian_storage/adapters/kafka/consumer/__init__.py:640-710 | when the last page is not truncated the pages hold what one unlimited read returns |
| `RangePaging.FollowUpAccepted` | src/meridian_storage/adapters/kafka/consumer/__init__.py:640-670 | the cursor of a page passes the bounds checks of the next read |
| `RangePaging.PageResumesIff` | src/meridian_storage/adapters/kafka/consumer/__init__.py:704-706 | a page and what is read on from its cursor lose nothing iff the loop takes no answer that is a record of the partition at or past its end; the end is explicit, or a watermark that the log has outgrown |
| `RangePaging.CursorCanLose` | src/meridian_storage/adapters/kafka/consumer/__init__.py:704-706 | a page that loses a record |
| `Base64Url.Unb64Exact` | src/meridian_storage/adapters/kafka/cursor/__init__.py:373-383 | decoding gives some bytes iff the text is the non-empty encoding of just those bytes |
| `Base64Url.Unb64Accepts` | src/meridian_storage/adapters/kafka/cursor/__init__.py:377-383 | accepted are exactly the non-empty texts over the url-safe alphabet with a possible length and no stray bits, as sections 3.2, 3.5 and 5 of RFC 4648 have it |
| `Base64Url.LenientInverts` | src/meridian_storage/adapters/kafka/cursor/__init__.py:373-380 | the library decoder inverts the encoder once the padding is back |
| `Base64Url.B64Length` | src/meridian_storage/adapters/kafka/cursor/__init__.py:373-374 | the size of an encoding |
| `Positions.IntStr` | src/meridian_storage/adapters/kafka/cursor/__init__.py:326-353 | a printed partition number reads back as itself |
| `Positions.PrintedInjective` | src/meridian_storage/adapters/kafka/cursor/__init__.py:302-311 | different position maps print differently |
| `Positions.ParsePositions` | src/meridian_storage/adapters/kafka/cursor/__init__.py:345-355 | the loop parses the members in order and checks their number |
| `Positions.ParseInverts` | src/meridian_storage/adapters/kafka/cursor/__init__.py:314-355 | what was printed parses back to the map, in whatever order the members come |
| `Positions.FingerprintInjective` | src/meridian_storage/adapters/kafka/cursor/__init__.py:302-311 | equal fingerprints for a topic mean equal maps |
| `Tokens.RingSound` | src/meridian_storage/adapters/kafka/cursor/__init__.py:66-70 | a ring with unique token-safe ids and one active key holds that key under its own id |
| `Tokens.MakeRingIff` | src/meridian_storage/adapters/kafka/cursor/__init__.py:66-70 | a ring is made iff exactly one key is active, and that key signs |
| `Tokens.SplitJoin` | src/meridian_storage/adapters/kafka/cursor/__init__.py:84-87 | splitting at the dots undoes joining parts without dots |
| `Tokens.SealedParts` | src/meridian_storage/adapters/kafka/cursor/__init__.py:72-79 | a token always splits into exactly four parts and is plain ASCII |
| `Tokens.OpenExact` | src/meridian_storage/adapters/kafka/cursor/__init__.py:81-96 | a token opens to some bytes iff it is the one token of those bytes under the key that the ring has for its id |
| `Tokens.SealedOpens` | src/meridian_storage/adapters/kafka/cursor/__init__.py:81-96 | what any ring makes of a token: unknown key, bad signature, or its bytes |
| `Tokens.RotationRoundTrip` | src/meridian_storage/adapters/kafka/cursor/__init__.py:72-96 | a token made with one ring opens under every ring that keeps its key, and under none without its id |
| `Tokens.OneToken` | src/meridian_storage/adapters/kafka/cursor/__init__.py:81-96 | a key id and a payload have one accepted token |
| `Tokens.PayloadNeverTooLarge` | src/meridian_storage/adapters/kafka/cursor/__init__.py:94-96 | the payload-size check never fires |
| `Tokens.EncodeIff` | src/meridian_storage/adapters/kafka/cursor/__init__.py:72-79 | a token can be made iff the encoded payload leaves room for the key id and 49 characters in 4096 |
| `Tokens.TokensMade` | src/meridian_storage/adapters/kafka/cursor/__init__.py:132-270 | a cursor can be made iff it has 1 to 128 positions and fits, a position or delivery token iff it fits; and what is sealed in each |
| `Tokens.CursorRoundTrip` | src/meridian_storage/adapters/kafka/cursor/__init__.py:132-173 | before it expires a cursor gives back its position map and expiry for its own resource and topic, and is refused for any other |
| `Tokens.PositionRoundTrip` | src/meridian_storage/adapters/kafka/cursor/__init__.py:175-223 | the same of a single position |
| `Tokens.DeliveryRoundTrip` | src/meridian_storage/adapters/kafka/cursor/__init__.py:225-300 | a delivery token brings back the coordinate, epoch and attempt that it was handed out for, to its own subscription and group alone |
| `Tokens.CursorAsPositions` | src/meridian_storage/adapters/kafka/consumer/__init__.py:784-796 | a cursor is understood where positions are wanted |
| `Tokens.PositionAsPositions` | src/meridian_storage/adapters/kafka/consumer/__init__.py:784-796 | a single position is too, and is never mistaken for a cursor |
| `Idempotency.ReceiptsMeaning` | src/meridian_storage/adapters/kafka/producer/__init__.py:89-106 | receipts exist iff every event was stored, one for each event, in order and with its place |
| `Idempotency.ProducerEngine.Publish` | src/meridian_storage/adapters/kafka/producer/__init__.py:48-120 | without an entry the call publishes iff everything was queued, nothing was left and every event was stored, and returns one receipt for each with its place; with an entry it replays or refuses; the new cache, and whether anything was handed to the producer client |
| `Idempotency.ProducerEngine.Remember` | src/meridian_storage/adapters/kafka/producer/__init__.py:107-112 | entering, moving to the end and evicting leave the most recent entries |
| `Idempotency.StackProperty` | src/meridian_storage/adapters/kafka/producer/__init__.py:62-76 | behind a key in the recency list stand exactly the keys accepted since |
| `Idempotency.CacheRefinesHistory` | src/meridian_storage/adapters/kafka/producer/__init__.py:54-120 | over every run the cache is the n most recent entries of the unbounded recency list |
| `Idempotency.CacheRunObeys` | src/meridian_storage/adapters/kafka/producer/__init__.py:54-120 | every call is answered by the latest entry of its key iff fewer than n keys were accepted since, and transactional or failed publishes leave nothing |
| `Idempotency.PublishedMeaning` | src/meridian_storage/adapters/kafka/producer/__init__.py:89-120 | over every run a publish is answered by receipts iff every event was stored, one for each event in order and with its place |
| `Idempotency.Remembers` | src/meridian_storage/adapters/kafka/producer/__init__.py:54-76 | a call in a transaction or without a key is never answered from the cache and leaves nothing; any other accepted call binds its key to what it returned |
| `Idempotency.ReplayIsOriginal` | src/meridian_storage/adapters/kafka/producer/__init__.py:62-76 | a replay returns the receipts of an earlier publish of the same key and data |
| `Idempotency.ReplayIsComplete` | src/meridian_storage/adapters/kafka/producer/__init__.py:62-76 | a replay has one receipt for each event of the call that it answers |
| `Idempotency.BoundUntilEvicted` | src/meridian_storage/adapters/kafka/producer/__init__.py:62-76 | an accepted key is produced again only after n other keys were accepted |
| `Idempotency.BoundAnswer` | src/meridian_storage/adapters/kafka/producer/__init__.py:62-76 | while fewer than n keys were accepted since, a call under an accepted key replays its receipts if the data is the same and conflicts if not |
| `Idempotency.LetterRetryRefused` | src/meridian_storage/adapters/kafka/consumer/__init__.py:236-250 | a dead letter made anew for the same event and attempt conflicts with the one that was written, until n other keys were accepted |
| `Idempotency.LetterKeysDiffer` | src/meridian_storage/adapters/kafka/consumer/__init__.py:240-247 | letters of different events or attempts have different keys |
| `ApiVersions.SignedExact` | src/meridian_storage/adapters/kafka/probe/protocol.py:89-90 | the bytes that read as a number that is not negative are exactly those that print it |
| `ApiVersions.Reader.Take` | src/meridian_storage/adapters/kafka/probe/protocol.py:82-87 | the next bytes, or a refusal that moves nothing |
| `ApiVersions.ParseApiVersions` | src/meridian_storage/adapters/kafka/probe/protocol.py:106-120 | accepts exactly the byte strings printed from 1 to 1000 valid ranges with distinct keys, and returns that list |
| `ApiVersions.OneList` | src/meridian_storage/adapters/kafka/probe/protocol.py:106-120 | a byte string is printed from one list at most |
| `ApiVersions.Connection.Read` | src/meridian_storage/adapters/kafka/probe/protocol.py:135-143 | the next bytes in their order, however they arrive, and none beyond |
| `ApiVersions.Connection.Request` | src/meridian_storage/adapters/kafka/probe/protocol.py:145-157 | what is sent; a body is returned only if the frame that answers is next, and always if that frame arrives in time |
| `ApiVersions.RequestReads` | src/meridian_storage/adapters/kafka/probe/protocol.py:145-150 | what the broker reads in a request: length, API, version, correlation, the name of the client, and the body |
| `ApiVersions.Connection.Probe` | src/meridian_storage/adapters/kafka/probe/protocol.py:145-157 | for any chunking a printed list comes back as that list |
| `ApiVersions.ValidateApiVersions` | src/meridian_storage/adapters/kafka/probe/protocol.py:56-74 | succeeds iff every required API has a version in common with the broker, and chooses the highest one |
| `ApiVersions.TransactionalServesAll` | src/meridian_storage/adapters/kafka/probe/protocol.py:31-53 | a broker that serves transactional clients serves the others, with the same versions |

## Left out

- Credential rotation: it swaps the bridge and the consumer engine under sessions that may be active.
- Threads inside one call, locks and the wait for the lease: each call is one step, and a lease that is held is a timeout.
- Liveness and wall-clock promises: eventual redelivery and retry delays depend on the caller and the clock.
- Kafka clients, sockets, TLS, SASL and SCRAM: their answers are parameters of the steps.
- Event envelopes and JSON text: events and payloads are values, with a codec and a test for decodability.
- Configuration parsing, the operation compiler, error normalisation, telemetry, lag figures, the descriptor and physical
  verification: validation branches and tables that would add easy members only.
- A client failure inside a rebalance callback, and a message of another topic: both raise before the group state changes.
- The contents of a dead-letter event: only that it was written before the acknowledgement, and what its key and data depend on.
  The steps of the runtime take the answer of the producer to it as a parameter.
- Numbers in a position map written with digits outside ASCII: `isdigit` lets some through; the model knows `0` to `9`.
- SafeOffsets.SafeIsAccountedFor: assumes that only this engine commits for the group, that it does so directly only while nothing is staged for the group, and that an interrupted recovery does not leave out the group that something is staged for; `Counterexamples.CommitCanLower` shows that the second is needed.
- SafeOffsets.NothingAbortedRemains: assumes the same.
- DurableRuns.DurableAtLeastOnce: assumes that a group touched by the open transaction is acknowledged through it and is not repositioned beside it, and that the recovery after a failed transaction reaches the groups that were acknowledged in; `Counterexamples` has a loss for each.
- DurableRuns.NoAbortedProgress: assumes the same.
- CommittedOffsets.CommittedNeverFalls: assumes that no other member commits for the group, that no position is set, and that the group is not dropped while something is staged for it unless the transaction ends with that; `CommittedOffsets.LowersIff` covers the first two, and `Counterexamples.AcknowledgementCanLower` shows that the third is needed.
- RuntimeSafety.ConsumePublishKept: assumes the last of these; `RoutingLimits.AbortedProgressSurvivesIff` says what happens otherwise.
- Idempotency: two overlapping publishes with one key can both produce, since the lock is released while sending; the runs here are sequential.
