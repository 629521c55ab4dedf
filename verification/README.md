# Verified model of the Operation Monitoring server

The server watches machines, raises alerts and delivers them through channels, signs administrators in
with one-time codes, exports its audit log, transfers files to agents and forwards Docker requests. This
project models the parts of it that are protocols: state that several workers, requests or programs change
at once, or a stream that is read piece by piece. Each module follows one part of the source.

| module | what it models |
|---|---|
| `AlertTables`, `AlertEvaluation`, `AlertTransactions` | the alert tables, the evaluation of one observation, and every statement or transaction on them as a function from tables to tables |
| `AlertStore` | the same transactions as methods that update the tables in place, with the loops of the source |
| `AlertProtocol` | the delivery queue as a state machine: any number of workers that may vanish before any step, administrators, observers, retention |
| `AlertInvariants`, `AlertHistory`, `AlertTheorems`, `AlertBackoff`, `AlertFinality` | the inductive invariant, what one step may change, and the guarantees over every run |
| `AlertRows`, `AlertEvents` | every step from the side of one delivery, event, channel or rule: what it leaves of the row, column by column and in numbers, and which rows it adds and deletes |
| `AlertLeases` | what a claim and a delivered attempt are good for, over whole runs |
| `AlertTrace`, `AlertRuns` | the evaluation automaton against a declarative meaning of the observation trace, and the event rows of whole runs against the automaton |
| `AuthLimiter` | the failed-login limiter: windows, blocks, pruning, eviction |
| `OneTimeCodes` | code acceptance and the single reuse of a login code, over all interleavings of requests |
| `ForwardedChain` | the reverse walk over X-Forwarded-For |
| `AuditExport`, `CsvExport`, `AuditDownload` | the keyset export over a changing table, text truncation, the CSV form with a reader after section 2 of RFC 4180, and both composed |
| `FileFrames`, `FileUpload`, `UploadProtocol` | the chunk frame codec, the sliding-window upload loop, and server and agent together |
| `DockerSettlement` | how pending Docker requests and their audit events are settled |
| `Wrappers` | the option type |

One SQL statement, one transaction, or one section under a lock is one step. What the environment decides (a
clock reading, a fresh UUID, the result of sending, the rows another writer inserted, what an agent answers)
is an argument of the step. Each statement is serializable, and UUIDs are never drawn twice (`FreshIds`). That
timestamps do not go back is a separate assumption (`InTime`, and `Monotone` for the limiter), made only where
it is needed: runs without it are `FreshRun`s, runs with it `LegalRun`s. The lemmas about traces also use that a
rule's duration is not negative, which the rules table checks (backend/src/alerts.rs:416).

## What is proved

The delivery queue, for every run from empty tables, with crashes anywhere and whatever the clocks do:

- recorded attempts of a delivery never exceed 5 × (manual retries + 1), carry strictly increasing numbers, and
  never exceed the started attempts;
- once a lease token has left its row, no later step of that claim changes any table;
- a delivery succeeds exactly by a worker that holds it reporting success; it then has no retry time, lease or
  token and is never changed again, manual retries included;
- of all deliveries of one (event, channel, kind) at most one succeeds;
- claiming the resolved notification of an (event, channel) is final, that is, no firing or acknowledged one of
  them is in flight in any continuation, if and only if none that is in flight was created later;
- a transient SMTP error at time t with delay d keeps every delivery of that channel, retried and new ones
  included, unclaimed before t + d, and touches no other channel;
- a channel with work whose retry times, leases and cooldown have passed always has a delivery to claim;
- a new event is linked to exactly the channels of its rule that exist and are not deleted, keeps them for good,
  and comes with exactly one first report for each of them that is usable, and with no other row;
- after an accepted abnormal, unsuppressed observation every usable channel of the event has exactly one
  unsuppressed firing notification; closing an event leaves no first report of it waiting and, like acknowledging
  it, is reported exactly once per usable channel;
- every event row of a rule and instance is an event of the evaluation automaton, with its start, opening, match
  count and end.

When in addition timestamps never go back:

- at most one delivery of a channel holds an unexpired lease, and at most one worker can start an attempt on it;
- a claim at t keeps its row and its channel for the worker while every timestamp is below t + 180: no other claim
  on the channel succeeds, and the attempt starts once the recheck has cleared it; at t + 180 the row can be
  claimed again unless its channel cools or an earlier report of its event is in flight;
- the condition for finality holds at every claim of a resolved notification;
- two events of a rule and instance share no moment;
- after a failed attempt the delivery is not claimed before 60 s, 5 min, 15 min or 1 h have passed, and after the
  fifth of a cycle not at all, unless an administrator retries it by hand.

Evaluation: an event is active after a trace exactly when some abnormal run among the accepted observations was
long enough and none since was a recovery; it opens and closes at exactly those observations and carries the
start and the length of its run; stale samples change nothing. Between two resets of a rule on an instance any
run of the protocol computes this meaning, with acknowledgements, other rules and workers interleaved.

The other modules' main results are `AuthLimiter.RefusedIff`, `BlockStandsIff` and `PruningIsInvisible`,
`OneTimeCodes.FreshAtMostOnce`, `RefusedOnlyWhenUsed`, `ReusedAtMostOnce` and `ReusedByItsOwnSession`, `ForwardedChain.ResolvedIff` and
`LeftOfUntrustedIsIgnored`, `AuditExport.Export`, `CsvExport.ExportReadsBack` and `AuditDownload.Download`,
`FileUpload.Upload` (success if and only if a condition on body, connection and answers),
`UploadProtocol.NothingGoesWrong` and `EveryRunDelivers`, and `DockerSettlement.RunningExactlyWhilePending`,
`EndedByAStep`, `SuccessWasAnswered` and `FinishedOnce`.

Where the code does less than its documentation or one would expect, the model follows the code:

- the strict serial order of a lifecycle (README.md:614-690) can break when timestamps go back, which they can:
  an evaluation pass reads the clock once (backend/src/alerts.rs:2055), an acknowledgement reads its own (2361).
  `AlertFinality.SkewedRunIsNotFinal` is a run from empty tables in which it breaks, and
  `ResolutionIsFinalIff` the exact condition;
- a header line that is not text turns the client address into the peer's even when it stands left of the
  address that decides; `LeftOfUntrustedIsIgnored` says exactly when, `UnreadableLineChangesTheAnswer` shows one;
- a neutralised CSV text can coincide with another text that itself begins with a quote: `CellTellsText` says
  exactly when;
- the limiter counts in windows that begin with a failure, not in one that slides. Five failures within four
  seconds may pass (`BurstAcrossWindows`): `FiveFailuresRefusedIff` says exactly when five failures within 300
  seconds are refused. And a failure after the window is over lifts a standing block (`FurtherFailureLiftsBlock`),
  which a refused caller can bring about, since account failures are recorded for refused callers too
  (backend/src/admin_auth.rs:379-380, 928-929): `BlockStandsIff` says exactly when a block stands until its end.

## Model

| member | source | states |
|---|---|---|
| AlertStore.Store.ClaimDelivery | backend/src/alerts.rs:3986-4048 | picks the first candidate in claim order (ready longest, then oldest, then by id), or none when there is none, and turns the tables into those of the claim |
| AlertStore.Store.StartDeliveryAttempt | backend/src/alerts.rs:4050-4071 | starts only under the copy's unexpired token; both counters rise, nothing else changes |
| AlertStore.Store.ReleaseDeliveryClaim | backend/src/alerts.rs:4073-4094 | only the token holder gives the row back, pending at the retry time |
| AlertStore.Store.MarkDeliverySuppressed | backend/src/alerts.rs:4169-4212 | only the token holder suppresses the row, and flags its unresolved event |
| AlertStore.Store.FinishDeliveryAttempt | backend/src/alerts.rs:4779-4959 | logs the attempt and settles, suppresses, fails or requeues the row, and cools the channel down, all only under the token |
| AlertStore.Store.ResetFailedDelivery | backend/src/alerts.rs:3892-3961 | every refusal of a manual retry, and the reset with a fresh cycle otherwise |
| AlertStore.Store.EnqueueForChannel | backend/src/alerts.rs:1442-1474 | one channel of an enqueue: a first suppressed report once, a deliverable row unless there is one |
| AlertStore.Store.EnqueueEventLifecycle | backend/src/alerts.rs:1420-1475 | the loop over the event's channels adds exactly the rows of the whole enqueue |
| AlertStore.Store.ResolveEventTx | backend/src/alerts.rs:1477-1545 | closes the event, suppresses its waiting first reports, enqueues the recovery; nothing when already closed |
| AlertStore.Store.AcknowledgeEventTx | backend/src/alerts.rs:2288-2348 | acknowledges an open event once and enqueues that |
| AlertStore.Store.ProcessRuleObservation | backend/src/alerts.rs:1626-1904 | one observation's whole effect on evaluation row, event and deliveries |
| AlertTables.RetryDelayAfter | backend/src/alerts.rs:4961-4966 | 60 s, 5 min, 15 min and 1 h after the first four attempts of a cycle, and no retry otherwise |
| AlertTables.CooldownDelay | backend/src/alerts.rs:4968-4978 | for a transient error on an email channel exactly: the attempt's retry delay, or one hour when it has none |
| AlertInvariants.ApplyKeepsInv | backend/src/alerts.rs:3986-4212 | every step keeps: processing rows are exactly those with lease and token, tokens unique, one lease per channel, the two partial unique indexes, references, lifecycle and worker copies |
| AlertInvariants.ApplyKeepsCore | backend/src/alerts.rs:3986-4212 | the same without what speaks of time, whatever the step's timestamp |
| AlertInvariants.RunKeepsInv | backend/src/alerts.rs:4980-5030 | the invariant over whole runs of workers, administrators and observers |
| AlertInvariants.InitialInv | backend/src/alerts.rs:500-640 | it holds of empty tables |
| AlertInvariants.EnqueueKeepsIndex | backend/src/alerts.rs:611-613 | no enqueue can violate the partial unique index of deliverable rows |
| AlertInvariants.ObserveKeepsInv | backend/src/alerts.rs:1626-1904 | an observation keeps every invariant, at most one unresolved event per rule and instance included |
| AlertInvariants.FinishKeepsInv | backend/src/alerts.rs:4779-4959 | finishing an attempt keeps every invariant |
| AlertInvariants.ClaimKeepsInv | backend/src/alerts.rs:3986-4048 | claiming keeps every invariant, channel exclusion included |
| AlertInvariants.HeldCopy | backend/src/alerts.rs:4036-4047 | a worker that still holds its row has a copy that agrees with it |
| AlertHistory.ApplyEvolves | backend/src/alerts.rs:3892-4212 | what any step may do to any row: terminal rows stay, tokens are only drawn or dropped, no new report of a closed event, cooldowns never shrink, closed events stay closed |
| AlertTheorems.RetryBudget | backend/src/alerts.rs:4050-4071 | recorded attempts within 5 per cycle, strictly numbered, never more than started |
| AlertTheorems.ChannelExclusion | backend/src/alerts.rs:3998-4004 | at most one unexpired lease per channel |
| AlertTheorems.OneSenderPerChannel | backend/src/alerts.rs:4050-4071 | at most one worker can start an attempt on a channel |
| AlertTheorems.SpentForever | backend/src/alerts.rs:4036-4046 | a token no row carries any more never comes back |
| AlertTheorems.Fencing | backend/src/alerts.rs:4083-4092 | a worker whose token is gone changes no table, in any continuation |
| AlertFinality.ClaimQuiescesIff | backend/src/alerts.rs:4005-4030 | claiming a resolved notification leaves no report of the pair in flight if and only if none of them was created after it |
| AlertFinality.ClaimFinishes | backend/src/alerts.rs:3986-4048 | a claim that meets the condition finishes the pair |
| AlertFinality.FinishedStays | backend/src/alerts.rs:3892-3969 | no step, manual retry included, reopens a finished pair or touches its reports |
| AlertFinality.ResolutionIsFinalIff | backend/src/alerts.rs:3986-4048 | over runs whose clocks may go back: claiming a resolved notification is final for its pair if and only if no in-flight report of the pair was created later |
| AlertFinality.SkewedRunIsNotFinal | backend/src/alerts.rs:2055-2055 | a run from empty tables, ids drawn once, whose clock goes back and whose claim is not final |
| AlertFinality.InOrderNoneLater | backend/src/alerts.rs:4005-4030 | with clocks that do not go back the condition holds at every such claim |
| AlertFinality.ResolutionIsFinal | backend/src/alerts.rs:3986-4048 | so then no firing or acknowledged notification of the pair is in flight or changed in any continuation |
| AlertLeases.DeliveredIsFinal | backend/src/alerts.rs:4884-4896 | a delivered attempt leaves its row succeeded, without retry time, lease and token, with the attempt recorded; in every continuation the row is unchanged while it exists and no claim of it changes a table |
| AlertLeases.SucceedsOnlyByDelivery | backend/src/alerts.rs:4884-4896 | a row becomes succeeded exactly by the step in which the worker that has it under lease reports delivery |
| AlertLeases.SucceededWasDelivered | backend/src/alerts.rs:4884-4896 | so in every run from empty tables a succeeded row was reported delivered by a worker that held it |
| AlertLeases.ClaimLasts | backend/src/alerts.rs:4036-4046 | after a claim at t, without steps of its worker and deletion of the row, and below t + 180: the row is as claimed and no other claim of it or on its channel changes a table |
| AlertLeases.ClaimedAttemptStarts | backend/src/alerts.rs:4050-4071 | within those 180 seconds the worker, once its recheck has cleared the copy, goes on to send, with one attempt more counted |
| AlertLeases.ClaimEnds | backend/src/alerts.rs:3993-4034 | at t + 180 the row can be claimed exactly when its channel does not cool and no earlier report of its event is in flight on it |
| AlertLeases.RecheckDecides | backend/src/alerts.rs:4096-4167 | a claimed copy is suppressed exactly when it is a first report of an event closed or silenced now, given back when that cannot be read, and sent otherwise |
| AlertRows.RowAfterIsExact | backend/src/alerts.rs:3892-4212 | what each step leaves of a delivery row that survives it, column by column: the 180 s lease, the four retry delays, the pushed-back times, the reset cycle, the one-second release, the settled statuses |
| AlertRows.NewRowsAreReports | backend/src/alerts.rs:1420-1475 | every row a step adds is a report for a usable channel of its event, due at once or suppressed, or the test message asked for |
| AlertRows.DeletedExactlyWhenExpired | backend/src/alerts.rs:5059-5075 | rows are deleted by retention alone, exactly with an event resolved before the cutoff, or as a test message created before it and no longer in flight |
| AlertRows.GrantedExactly | backend/src/alerts.rs:3993-4034 | the exact condition of a claim, in plain comparisons of retry time, lease, cooldown, other leases and creation order |
| AlertEvents.EventAfterIsExact | backend/src/alerts.rs:1626-1904 | what each step leaves of an event: repeated, closed, acknowledged or flagged exactly under the stated conditions on the observation, and never otherwise changed |
| AlertEvents.EventDeletedExactlyWhenExpired | backend/src/alerts.rs:5071-5074 | events are deleted by retention alone, exactly when resolved before the cutoff |
| AlertEvents.NewEventLinksChannels | backend/src/alerts.rs:1860-1868 | an event is added exactly by a counting, abnormal and ripe observation of a pair without unresolved event, and is linked to exactly the channels of the rule that exist and are not deleted |
| AlertEvents.NewEventReports | backend/src/alerts.rs:1442-1473 | a new event comes with exactly one row for each usable channel of its rule, its first report, and with no other row |
| AlertEvents.ReportsExactlyWhenMissing | backend/src/alerts.rs:1442-1473 | an abnormal observation adds a row for a channel of the event exactly when the channel is usable and no firing row is there already: none at all if suppressed, no unsuppressed one otherwise |
| AlertEvents.EventChannelsAreFixed | backend/src/alerts.rs:1864-1868 | in every continuation the event keeps the channels it was opened with, whatever happens to its rule and its channels |
| AlertEvents.ChannelAfterIsExact | backend/src/alerts.rs:3699-3741 | what each step leaves of a channel: switched, deleted, or cooled down until the stated time, and never otherwise changed |
| AlertEvents.RulesAfterStep | backend/src/alerts.rs:3721-3724 | a rule changes only when rules are replaced, or by losing a channel that is deleted |
| AlertTheorems.CooldownHolds | backend/src/alerts.rs:4846-4883 | no claim on the channel before the delay of the failed attempt has passed, whatever happens in between |
| AlertTheorems.CooldownAlong | backend/src/alerts.rs:4846-4883 | a channel's cooldown never decreases |
| AlertTheorems.CooldownIsLocal | backend/src/alerts.rs:4846-4883 | other channels and their deliveries stay as they were |
| AlertTheorems.NoPermanentBlocking | backend/src/alerts.rs:3993-4034 | a channel with due work and no cooldown has a candidate |
| AlertTheorems.EnqueueDelivers | backend/src/alerts.rs:1442-1473 | after an unsuppressed enqueue every usable channel of the event has an unsuppressed row |
| AlertTheorems.FirstReportExactlyOnce | backend/src/alerts.rs:1395-1397 | exactly one unsuppressed firing row per usable channel after an accepted abnormal, unsuppressed observation |
| AlertTheorems.OneActiveEvent | backend/src/alerts.rs:519-520 | at most one unresolved event per rule and instance |
| AlertTheorems.EventsNeverOverlap | backend/src/alerts.rs:1706-1861 | two events of a rule and instance share no moment |
| AlertTheorems.AtMostOneSuccess | backend/src/alerts.rs:611-613 | of all rows of one (event, channel, kind) that ever exist at most one succeeds |
| AlertBackoff.StepWaits | backend/src/alerts.rs:3986-4048 | no step but a manual retry brings a waiting row back into flight before its time |
| AlertBackoff.RetryBackoff | backend/src/alerts.rs:4927-4955 | a failed delivery is not claimed before its retry delay has passed, and after the fifth failure of a cycle not at all, without a manual retry |
| AlertBackoff.ClosingSilences | backend/src/alerts.rs:1508-1519 | no first report of a closed event is left waiting |
| AlertBackoff.RecoveryExactlyOnce | backend/src/alerts.rs:1477-1545 | closing an event leaves exactly one recovery notification per usable channel |
| AlertBackoff.AcknowledgementExactlyOnce | backend/src/alerts.rs:2288-2348 | acknowledging leaves exactly one acknowledgement notification per usable channel |
| AlertTrace.ActiveIffAlarmed | backend/src/alerts.rs:1626-1904 | an event is active exactly when the trace of accepted observations says so |
| AlertTrace.OpensExactlyWhenRipe | backend/src/alerts.rs:1809-1861 | an event opens exactly when the unbroken abnormal run has lasted the duration, with that run's start and length |
| AlertTrace.ClosesExactlyWhenRecovered | backend/src/alerts.rs:1200-1214 | an event closes exactly on the first normal observation, or for the offline metric after normal ones spanning 60 seconds |
| AlertTrace.StaleChangesNothing | backend/src/alerts.rs:1216-1236 | a stale sample leaves evaluation and events as they were |
| AlertTrace.EpisodesNeverOverlap | backend/src/alerts.rs:1706-1861 | events of one pair follow each other in time |
| AlertRuns.SampleMirrors | backend/src/alerts.rs:1626-1904 | the observation transaction does to row and events what the automaton does: activity, start, opening, match count and end |
| AlertRuns.StepMirrors | backend/src/alerts.rs:1547-1624 | so does every step: deletions and resets feed the automaton, all other steps leave it alone |
| AlertRuns.EveryEventIsAnEpisode | backend/src/alerts.rs:1626-1904 | in every run from empty tables the event rows of a pair are the automaton's events, column by column |
| AlertRuns.ResetIsClean | backend/src/alerts.rs:1547-1624 | after an outright resolution, or a deletion of the row while no event is active, evaluation starts afresh |
| AlertRuns.RunsComputeMeaning | backend/src/alerts.rs:1626-1904 | between resets, whatever is interleaved, a run ends with an active event exactly when its accepted observations say so, and with the events the trace gives |
| AuthLimiter.Limiter.Prune | backend/src/admin_auth.rs:1253-1257 | keeps exactly the entries that block or whose window still runs |
| AuthLimiter.Limiter.EnsureAllowed | backend/src/admin_auth.rs:1178-1194 | allowed exactly when the key does not block now |
| AuthLimiter.Limiter.OldestUnblocked | backend/src/admin_auth.rs:1223-1228 | an entry that does not block with the earliest window, none only when every entry blocks |
| AuthLimiter.Limiter.RecordFailureLocked | backend/src/admin_auth.rs:1216-1243 | the failure is counted; a full map forgets an oldest unblocked key first, or ignores the failure when all block |
| AuthLimiter.Limiter.RecordFailure | backend/src/admin_auth.rs:1205-1214 | the failure is counted unless a full map has only blocking keys; the cap is kept, and no other blocked key is removed or altered |
| AuthLimiter.Limiter.Clear | backend/src/admin_auth.rs:1245-1251 | the key is refused at no time until it fails again, and no other key changes |
| AuthLimiter.PruningIsInvisible | backend/src/admin_auth.rs:1178-1214 | after any run the answer is the same as if nothing were ever pruned |
| AuthLimiter.EntryIsExact | backend/src/admin_auth.rs:1231-1242 | window start, count and block of a key, each said of its failures alone |
| AuthLimiter.RefusedIff | backend/src/admin_auth.rs:1178-1243 | refused exactly when five or more failures since the last success came in from the one that opened the latest window, and the latest is less than 300 seconds old |
| AuthLimiter.RefusalIsEarned | backend/src/admin_auth.rs:1178-1243 | nobody is refused without five failures since the last success within the 300 seconds of the latest window |
| AuthLimiter.FiveFailuresRefusedIff | backend/src/admin_auth.rs:1233-1237 | five failures within 300 seconds are refused exactly when none of the last four comes more than 300 seconds after the opening of the window before it |
| AuthLimiter.BurstAcrossWindows | backend/src/admin_auth.rs:1233-1237 | five failures within four seconds that are not refused |
| AuthLimiter.LateFifthFailure | backend/src/admin_auth.rs:1233-1237 | a fifth failure 304 seconds after the first is not refused |
| AuthLimiter.BlockStandsIff | backend/src/admin_auth.rs:1233-1242 | a block stands until its recorded end exactly when before it the key neither succeeds nor fails after its window is over |
| AuthLimiter.FurtherFailureLiftsBlock | backend/src/admin_auth.rs:1233-1237 | a block until 601 that a further failure at 302 lifts |
| OneTimeCodes.VerifyTotpCounter | backend/src/auth.rs:226-237 | six digits that are the code of the current 30-second period, else of the one before, else of the next; none exactly when of none |
| OneTimeCodes.Tables.Claim | backend/src/admin_auth.rs:971-985 | the conditional UPDATE succeeds exactly when the device exists and its last counter is none or smaller, and stores the new one |
| OneTimeCodes.Tables.VerifyUserCode | backend/src/admin_auth.rs:950-989 | with the devices as queried: accepts if and only if some listed device's code has a counter above its last one or there is none, takes the first such and stores its counter |
| OneTimeCodes.Tables.ClearLoginCounter | backend/src/admin_auth.rs:940-948 | clears the counter of the principal's own session only |
| OneTimeCodes.Tables.ConsumeLoginCounter | backend/src/admin_auth.rs:1023-1035 | succeeds exactly when the session still holds the allowed counter, which it then loses |
| OneTimeCodes.OpenedSessionOwnsItsCode | backend/src/auth.rs:324-345 | opening a session makes the login's code reusable by that session and by no other, and leaves all other sessions as they were |
| OneTimeCodes.Tables.RevokeMatching | backend/src/auth.rs:365-376 | removes exactly the matching sessions |
| OneTimeCodes.ApplyKeepsInv | backend/src/admin_auth.rs:916-1036 | every step of logins, step-ups, enrolment, deletion, expiry and crash keeps the invariant of counters, login codes and sessions |
| OneTimeCodes.FreshAtMostOnce | backend/src/admin_auth.rs:950-989 | in every run accepted counters of a device strictly increase, so no code is accepted as new twice |
| OneTimeCodes.AcceptsExactlyNewer | backend/src/admin_auth.rs:965-986 | a tried device is accepted exactly when its code's counter is above the last one queried and the last one stored, which is then stored and logged; otherwise only the next device's turn comes |
| OneTimeCodes.RefusedOnlyWhenUsed | backend/src/admin_auth.rs:965-986 | however requests interleave, a code above the last counter as queried is accepted at its turn, unless the device is gone or a counter at least as high was accepted on it since |
| OneTimeCodes.ReusedAtMostOnce | backend/src/admin_auth.rs:991-1036 | a login code is reused at most once over all sessions |
| OneTimeCodes.ReusedByItsOwnSession | backend/src/admin_auth.rs:991-1036 | only the one session opened by the login with that code reuses it |
| OneTimeCodes.ReusesExactlyWhatItHolds | backend/src/admin_auth.rs:1023-1035 | a login code is reused exactly when the requester's own session still holds it, and this spends it |
| OneTimeCodes.StepUpReusesLoginCode | backend/src/admin_auth.rs:991-1036 | a step-up whose code is not new but is the one its session holds succeeds once, and the session then holds it no more |
| OneTimeCodes.LastCounterIncreases | backend/src/admin_auth.rs:971-985 | no step lowers or repeats a device's last counter |
| OneTimeCodes.StepUpSpends | backend/src/admin_auth.rs:921-923 | a step-up with a new code spends its own session's login code |
| OneTimeCodes.SpentForGood | backend/src/admin_auth.rs:940-948 | a spent login code is not reused in any continuation |
| ForwardedChain.ForwardedFor | backend/src/admin_auth.rs:1324-1352 | the nested reverse loops compute the walk over the flattened list of hops |
| ForwardedChain.ResolvedClientIp | backend/src/admin_auth.rs:1285-1304 | headers count only from a trusted peer, X-Real-IP only without a chain, an unreadable chain yields the peer |
| ForwardedChain.ResolvedIff | backend/src/admin_auth.rs:1324-1352 | for every header, readable or not, exactly when an address is the answer, and Missing exactly for no hops |
| ForwardedChain.RightmostUntrusted | backend/src/admin_auth.rs:1324-1352 | when all elements are addresses: the rightmost untrusted of chain and peer, else the leftmost |
| ForwardedChain.LeftOfUntrustedIsIgnored | backend/src/admin_auth.rs:1331-1340 | anything left of the first untrusted hop is ignored, except a line that is not text directly beside it |
| ForwardedChain.SpoofedLinesAreIgnored | backend/src/admin_auth.rs:1331-1340 | lines written by the client do not change the address its proxy saw |
| ForwardedChain.UnreadableLineChangesTheAnswer | backend/src/admin_auth.rs:1333-1335 | one header for which an unreadable line changes the answer |
| ForwardedChain.SplitJoins | backend/src/admin_auth.rs:1336-1336 | splitting takes apart exactly what joining with commas puts together |
| ForwardedChain.JoinSplits | backend/src/admin_auth.rs:1336-1336 | the parts contain no comma and join to the text |
| AuditExport.Export | backend/src/audit.rs:1002-1072 | over a changing table: created_at and id strictly descending, so no row twice, own event excluded, at most 100,000 rows in batches of at most 1,000, every row present at each query exported unless the cap is reached above it |
| AuditExport.ExportFixed | backend/src/audit.rs:1002-1072 | on a fixed table the batches are the one sorted query cut at the cap |
| AuditExport.BatchIsExact | backend/src/audit.rs:855-884 | a batch is the descending head of the rows after the cursor |
| AuditExport.BatchExtends | backend/src/audit.rs:1021-1029 | one more batch keeps the order and misses no row that stays |
| AuditExport.DescendingIsUnique | backend/src/audit.rs:878-878 | the order determines the list |
| AuditExport.Truncate | backend/src/audit.rs:217-226 | the longest prefix of whole characters within the byte limit |
| CsvExport.AppendRow | backend/src/audit.rs:1098-1137 | the loop appends the row of an event |
| CsvExport.EscapedIsRead | backend/src/audit.rs:1139-1162 | the escaped form of any text reads back as the neutralised text |
| CsvExport.RowIsRead | backend/src/audit.rs:1098-1137 | a row reads back as one record of twenty-one cells |
| CsvExport.ExportReadsBack | backend/src/audit.rs:1096-1162 | the whole export reads back as the names and every event's cells |
| CsvExport.CellsMatchNames | backend/src/audit.rs:1096-1137 | every cell stands under its own column name |
| CsvExport.NeutralisedIsSafe | backend/src/audit.rs:1139-1154 | no neutralised text is taken for a formula, and only unsafe texts are changed, reversibly |
| CsvExport.NeutralisedInCharacters | backend/src/audit.rs:1139-1154 | a text gets a quote in front exactly when it begins with a tab, carriage return or line feed, or its first character after blanks is one of = + - @ |
| CsvExport.CellTellsText | backend/src/audit.rs:1150-1154 | exactly which texts share a cell |
| CsvExport.CellsAreSafeIff | backend/src/audit.rs:1129-1136 | all cells are safe exactly when no timestamp is negative |
| CsvExport.DigitsHaveValue | backend/src/audit.rs:1129-1136 | the decimal form determines the number |
| AuditDownload.Download | backend/src/audit.rs:1002-1137 | the streamed body of an export of a fixed table reads back as the names and the cells of the one sorted, capped query |
| FileFrames.Encode | backend/src/files.rs:930-944 | a frame exactly for at most 256 KiB: kind 1, the id, the sequence number with the most significant byte first, the data |
| FileFrames.DecodeInvertsEncode | backend/src/files.rs:946-960 | decoding recovers id, sequence and data, and refuses an oversized payload |
| FileFrames.EncodeInvertsDecode | backend/src/files.rs:946-960 | every accepted frame is the encoding of what was decoded |
| FileUpload.FramesAreTheBody | backend/src/files.rs:415-422 | however the body is split, its frames are non-empty, at most 256 KiB and concatenate to it |
| FileUpload.WaitUploadAck | backend/src/files.rs:820-842 | succeeds exactly on the acknowledgement of the oldest unacknowledged frame |
| FileUpload.Upload | backend/src/files.rs:377-469 | frames in order and never beyond the declared size, the window, acknowledgements and finish message kept in order, and success if and only if body, connection and answers allow it |
| FileUpload.WindowIsKept | backend/src/files.rs:417-420 | at no moment more than four frames unacknowledged |
| FileUpload.FinishedUploadIsTheBody | backend/src/files.rs:438-453 | at the finish message everything is acknowledged and the payloads are the body |
| UploadProtocol.StepOk | backend/src/files.rs:405-469 | every step of server, links and agent keeps the pipeline invariant |
| UploadProtocol.InboxHasRoom | instanceEnd/src/file_manager.rs:135-149 | the agent's queue of four never refuses a message, and the finish message, on its own channel, overtakes no frame |
| UploadProtocol.EventsHaveRoom | backend/src/files.rs:781-781 | the server's queue of twelve never drops an event |
| UploadProtocol.NothingGoesWrong | backend/src/files.rs:405-469 | in every interleaving neither side fails and no acknowledgement is lost or refused |
| UploadProtocol.SuccessMeansDelivered | instanceEnd/src/file_manager.rs:684-735 | success means that the agent committed exactly the bytes of the frames |
| UploadProtocol.NeverStuck | backend/src/files.rs:405-469 | some step is possible until the upload has succeeded |
| UploadProtocol.EveryRunDelivers | backend/src/files.rs:405-469 | a run has at most five steps per message, and one that cannot go on has delivered |
| UploadProtocol.TheBodyArrives | backend/src/files.rs:405-469 | however the body was split, it arrives |
| DockerSettlement.OutcomesAreStorable | backend/src/audit.rs:248-248 | every outcome, after the renaming of success, is a final status the table accepts |
| DockerSettlement.ApplyKeepsInv | backend/src/docker.rs:1631-1692 | every step of registration, response, expiry, disconnect and cancellation keeps the invariant |
| DockerSettlement.SettledByTheRemover | backend/src/docker.rs:2566-2595 | an event leaves the running state exactly by the step that removes its request or gives it up, with that step's outcome |
| DockerSettlement.RemovalSettles | backend/src/docker.rs:2802-2813 | a request goes away only by removal, which settles its event in the same step |
| DockerSettlement.AnswersAreRecorded | backend/src/docker.rs:2597-2617 | an answer leaves success, partial_success, cancelled or failed exactly under the stated conditions, and an error's own text |
| DockerSettlement.CodesAreTold | backend/src/docker.rs:2406-2423 | no two error codes share a text: each can be read back from it |
| DockerSettlement.AnswerSettles | backend/src/docker.rs:2566-2595 | an answer on the request's own instance and connection ends it, and its event reads what was answered |
| DockerSettlement.DroppedRequestsGo | backend/src/docker.rs:2566-2595 | a pending request goes exactly by an answer or expiry that names it as its own, a failed send, or a sweep that listed it |
| DockerSettlement.SweepListsItsOwn | backend/src/docker.rs:2791-2801 | a sweep lists exactly the pending requests of its connection or its instance |
| DockerSettlement.EndedEventReads | backend/src/docker.rs:1670-1690 | which step ends a running event and the status and code it leaves, in literal texts; any other event is unchanged |
| DockerSettlement.EndedByAStep | backend/src/docker.rs:2566-2813 | in every run an event that no longer runs was ended by one step of it and reads what that step left |
| DockerSettlement.SuccessWasAnswered | backend/src/docker.rs:2597-2617 | an event reads success only if an answer to its own request carried no error, no partial success and no completed == false |
| DockerSettlement.RunningExactlyWhilePending | backend/src/docker.rs:1714-1830 | in every run an event is running exactly while prepared or pending |
| DockerSettlement.FinishedOnce | backend/src/audit.rs:145-168 | a finished event is never changed again |
| DockerSettlement.SweepDrains | backend/src/docker.rs:2791-2813 | closing a connection that is no longer current leaves no request of it |
| DockerSettlement.DrainedForGood | backend/src/ws.rs:291-300 | and none appears later |
| DockerSettlement.Registry.FinishAudit | backend/src/docker.rs:2335-2355 | only a running event is finished |
| DockerSettlement.Registry.HandleResponse | backend/src/docker.rs:2566-2595 | only the matching pending request is removed, and its running event gets what the answer records |
| DockerSettlement.Registry.Expire | backend/src/docker.rs:1670-1690 | only a still pending request is settled as timed out or abandoned |
| DockerSettlement.Registry.List | backend/src/docker.rs:2792-2801 | exactly the requests in the sweep's scope |
| DockerSettlement.Registry.Settle | backend/src/docker.rs:2802-2813 | removes those still pending and finishes exactly their running events |

## Left out

- HTTP, SMTP and DNS sending, message texts and platform adapters: an attempt ends with an arbitrary outcome (delivered, transient SMTP error, other error).
- Encryption and the HMAC behind a code: the code of a counter is an arbitrary function.
- Row locks, SKIP LOCKED and connection pools: a statement is one step, and the state machine lets a worker claim any candidate, not only the first one, which covers skipped rows.
- Schema creation, migrations, listings, validation and channel configuration: branch by branch only.
- Columns that no statement reads back (titles, texts, error messages, response excerpts) and saturating 64-bit arithmetic: timestamps and counters are mathematical integers.
- Transactions that resolve several events (a rule deleted, an instance removed) are modelled one event at a time.
- Suppression rules and maintenance windows: whether an observation or a delivery is silenced is an argument.
- Observed values are opaque and whether one is abnormal is an argument; floating point is not modelled.
- UUIDs are numbers: the text order of ids is any total order.
- The order of an unordered map: of several equally old keys a full source map may forget any.
- The JSON form of the export, and the client dropping the stream midway.
- Timeouts and cancellation of an upload other than as a missing answer; downloads; the file system of the agent.
- The client's answer to a Docker request, the limit of eight requests per instance, log streams and exec sessions.
- A request handler that is cancelled before it has registered its pending entry: no property is intended there.
- Removing a pending Docker request and finishing its event are one step, although the program does the second just after the first.
- CsvExport.AppendRow: the two JSON columns are given as their serialised text.
- AuditExport.Export: the filters of the query are the table it sees.
- AlertBackoff.RetryBackoff: assumes timestamps that do not go back, since a step stamped later may claim the delivery first.
