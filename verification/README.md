# A verified model of the message workers, the vector builder and the configuration

The repository runs gateways that answer chat messages stored in PostgreSQL.  This
project models, in Dafny, the parts of it whose correctness is a matter of
protocol, and proves what its code and documentation say about them.

| file | models |
|---|---|
| `Tables.dfy` | the messages table and the claims table, as values |
| `PoolSteps.dfy` | every SQL transaction of the channel, as a function of the two tables |
| `PoolRuns.dfy` | the worker pool as a state machine: any number of gateways, 21 kinds of step, crashes included |
| `PoolSafety.dfy`, `SingleOwner.dfy` | what every run keeps |
| `LeaseRenewal.dfy` | heartbeats, and runs in which they are punctual |
| `ClaimOrder.dfy`, `Replies.dfy` | which message is taken next, and what becomes of the answer rows |
| `PoolWitnesses.dfy` | concrete reachable runs that show which hypotheses are needed |
| `CommandRounds.dfy` | a command task started any number of times without a counted retry |
| `SingleMode.dfy`, `SoloWitnesses.dfy` | one gateway without the claims table, and the runs on which its promises fail |
| `Channel.dfy` | `PostgresChannel` as a class whose methods update its fields and the tables |
| `Refinement.dfy`, `SoloRefinement.dfy` | those methods as legal runs of the pool, and of single mode |
| `Exchange.dfy`, `Redis.dfy` | the slots of `MessageExchange`, and the Redis channel that uses them |
| `Turns.dfy` | how one answer is assembled from deliveries, streams and reasoning |
| `Integrity.dfy`, `IntegrityTool.dfy` | the self-repair of the channel, and the tool meant to mirror it |
| `Vectors.dfy`, `VectorBuild.dfy` | incremental vector indexing: the specification, and the loops |
| `VectorRuns.dfy`, `VectorKeys.dfy` | no loss under failure, and keys that collide |
| `VectorTruth.dfy`, `VectorRecovery.dfy` | incremental against full rebuild; recovery after a faulty run |
| `VectorContent.dfy`, `TextSplitter.dfy` | what the vectors say: every text is in them; the loops that cut long texts |
| `Jsonc.dfy` | the comment stripper against a lexer |
| `Profiles.dfy`, `Environment.dfy`, `Resolver.dfy` | deep merge and the profile overlay; references to the environment; the resolver |
| `Strings.dfy` | where one text occurs in another |

`dafny verify dfyconfig.toml` checks all of it.

## How the code is read

* A `transaction()` block and a bare `execute` are each one atomic step, together
  with the changes to local fields up to the next `await`.  In `Channel.dfy`,
  `Yield` stands for an `await`: an arbitrary function `others` says what becomes of
  the tables meanwhile, as long as user rows and their chats stay.  In
  `PoolRuns.dfy` every other gateway may step.
* Tables are maps from primary key to row; `NOW()` is a clock that never runs
  backwards.  Row order is left open where SQL leaves it open: the loops over
  returned rows take them in any order.
* Fresh ids (`gen_random_uuid`) are ids that no row has.  A worker id is not used
  again after its gateway is gone; an explicitly configured id that is reused by a
  restarted gateway is outside the claim-memory invariant (`Remembered`).
* The ids an outbound message names are a user row (the task) and an assistant row
  or a row that is gone (the answer).
* Embeddings, inserts and deletes fail by an arbitrary pattern (`Faults`).
  `split_text` and MD5 are arbitrary functions to the index; where a theorem needs it,
  the splitter gives at least one segment for non-empty text (as
  `TextSplitter.SplitText` does), the hash is injective, and a source's primary keys
  are distinct after `_norm_pk` (`Distinct`; `VectorKeys.dfy` says what happens
  without).  Inside the splitter, where a regular expression cuts is arbitrary.
* `str()` of values other than strings and `str.upper()` are arbitrary functions; the
  order of a dict, which decides between exported names that collide, is left open.

A run theorem names its hypothesis by a `Rule`:

* `AnyStep` is none.
* `NoCommands` leaves out priority commands, and a gateway re-claiming a task inside
  its own cancelled drop.  Both break processing ⇒ claim on reachable states
  (`PoolWitnesses.CommandUncovers`, `PoolWitnesses.DropUncovers`); over all runs it
  holds throughout exactly when no such delete happens
  (`PoolSafety.CoveredThroughoutIff`).
* `GuardedDefers` asks that a deferred task is still `processing`; the exact condition
  is `PoolSafety.DeferKeepsBoundIff`.
* `Disciplined` asks that live gateways keep their leases fresh when another one
  reclaims, which follows when each sends a heartbeat at least once per timeout
  (`LeaseRenewal.PunctualIsDisciplined`), that finals come for turns that are held, and that a shutdown returns no
  lease on its way out whose task another gateway has claimed since (`StopsClean`).
  The code does not ensure the last: `stop()` can come between the `UPDATE … 'pending'`
  of a deferral and its claim delete, and then takes the task from its new owner
  (`PoolWitnesses.StopLosesOwner`; exactly then: `SingleOwner.StopKeepsOwnedIff`).

## Where the code and its documentation part

The model follows the code.

* The end of a priority command deletes the claim and leaves the row `processing`
  (`lib/channels/postgres_channel.py:898-901`): `processing ⇔ claim` (line 409) is
  broken until the next heal, which makes the command a repeatable `error` without
  counting a retry (`PoolSafety.CommandsUncover`).  Such a command can be started any
  number of times, whatever `max_stuck_retries` says (`CommandRounds.CommandsRestart`).
* The other half, claim ⇒ `processing`, is broken by every statement that takes a
  claimed task out of work and leaves the claim: a cancellation, a deferral before its
  claim delete, a final or a failure of a gateway that lost the task, and a shutdown
  that returns a lease another gateway has claimed (exactly these:
  `PoolSafety.BackingIff`, `PoolSafety.BackingThroughoutIff`; each reached in
  `PoolWitnesses`).  The next repair by any gateway removes those claims
  (`PoolSafety.ReclaimRemovesStranded`).
* Finals, failures and deferrals update the user row without a status guard.  A
  deferral can therefore put back a row that another gateway has already failed at
  the retry limit (`PoolWitnesses.StaleDeferBreaksBound`).
* In single mode the retry bound fails in the same way, by the unstick timer
  (`SoloWitnesses.StaleDeferBreaksBound`; exactly: `SingleMode.DeferKeepsBoundIff`).
* In single mode an `error` row is selected and then refused
  (`lib/channels/postgres_channel.py:1187-1201`), so an eligible `error` row holds up
  every younger message of every chat but priority commands
  (`SingleMode.NothingYoungerIsClaimed`, reached in `SoloWitnesses.BlockadeReached`).
  Nor is it ever repeated itself, though `lib/channels/README.md:38` promises a retry
  after `error_retry_delay` (`SingleMode.NeverReopened`; the one exception exactly:
  `SingleMode.ReopensIff`).
* A priority command overtakes: per-chat order holds for all runs but for messages
  claimed as commands (`SingleMode.FirstInFirstOut`, `SoloWitnesses.CommandOvertakes`;
  exactly when a claim breaks it: `SingleMode.TakeKeepsOrderIff`).
* Two live gateways can have one task in `_leases`: the new owner, and one that has
  put the task back or dropped it and not yet deleted its claim
  (`PoolWitnesses.LeasesOverlapInDeferral`; exactly: `SingleOwner.OverlapStartsIff`,
  `SingleOwner.OverlapIsOnItsWayOut`).
* Oldest first within a chat fails past a deferral: a message that was put back and whose
  claim is not yet deleted is overtaken by the next one of its chat
  (`ClaimOrder.DeferredIsOvertaken`; exactly: `ClaimOrder.OvertakenIff`).
* A placeholder can stay `processing` for good: a task is cancelled, its gateway crashes,
  and a repair drops the claim before it expires; the step for orphans looks only for
  replies without a user row (`Replies.AbandonedForGood`, reached in
  `Replies.AbandonedReached`).
* `_release_slot` does not discard an empty chat name, so such a chat stays busy
  for good (`Exchange.EmptyChatSticks`, reached in `Exchange.EmptyChatReached`; exactly:
  `Exchange.ReleaseFreesChatIff`).
* `send_delta` with `stream_end` drops the text of that very call
  (`Turns.StreamedAnswer`).
* Only the end of a stream empties its buffer: text streamed in a turn that an ordinary
  final closes stays under its key, which may be the chat, and stands in front of the
  next streamed answer (`Turns.LeftOverPrefixes`, `Turns.LeftOverReached`; exactly when an answer is its own:
  `Turns.StreamedAnswerIsOwnIff`).
* `_reply_to_map` can exceed its bound: an entry is written before its message is
  decoded, and only a dispatch trims (`Redis.BoundKeptIff`).  A chat that was known
  before may then lose its entry in the trim of its own dispatch
  (`Redis.DispatchedButForgotten`; exactly: `Redis.JustPutSurvivesIff`,
  `Redis.AnswerNamesRequestIff`).
* The integrity tool fails orphans after it drops dangling claims, so a live claim
  on an orphaned placeholder survives one repair (`Integrity.ClaimedOrphanRemains`;
  exactly: `Integrity.FixClearsChecksIff`).  With claims on user rows it cannot happen
  (`Integrity.FixClearsChecks`).
* A delivery that equals all the row holds is taken for a repetition and dropped, whether
  it is one or not (exactly: `Turns.DeliveriesInOrderIff`).
* `_split_by_chars` says that it always ends and loses nothing.  With an overlap that is
  not less than the segment it never ends (exactly: `TextSplitter.NeverEndsIff`), and with
  an overlap of 0 it keeps the first segment only (`TextSplitter.SplitByChars`).
* A full rebuild over a source with nothing to embed returns before its DELETE
  (`VectorTruth.RebuildIsFreshIff`).
* The digest covers the search text and not the chunks: with two columns and a long
  text, moving text from one column to the other can keep the digest, and then the
  old chunks stay, and no later run repairs them (`VectorTruth.IncrementalIsFreshIff`,
  `VectorTruth.RegroupingExists`, `VectorTruth.NextRunIsQuiet`).
* A row of which only some chunks land has a current digest: no later incremental run
  adds the others (`VectorRecovery.PartialLandingSticks`; exactly when the next
  error-free run recovers: `VectorRecovery.RecoversIff`).
* Primary keys that become equal after `_norm_pk` (1.2 and 1.7) can lose all vectors of
  their key: two changed rows supersede each other's chunks, and a blank row makes the
  key obsolete although an unchanged one is not inserted again
  (`VectorKeys.CollidingKeysLoseRow`; exactly: `VectorKeys.CleanKeepsKeyIff`).
* An overlay with an empty dict passes the check for extra keys and still replaces
  a scalar it does not own (`Profiles.EmptyDictEscapes`; exactly which leaves stay:
  `Profiles.ForeignLeafKeptIff`).
* The profile overlay is not quite immune to lower layers: what they hold is exported
  to the environment before references are replaced (`config.py:473`), so a lower layer
  decides a name the overlay gives as a reference (`Resolver.LowerLayerDecides`;
  exactly: `Resolver.OwnedNameIsFixedIff`, `Resolver.AlwaysResolvesIff`).
* The stripper replaces a comment with nothing.  It never joins two pieces into a
  comment or a string (`Jsonc.StripKeepsPieces`), though it joins two numbers
  (`Jsonc.NumbersJoin`; exactly what comes together: `Jsonc.NeighboursIff`).

## Model

| member | source | states |
|---|---|---|
| PoolSafety.PoolIsSafe | lib/channels/postgres_channel.py:1100-1142 | every run of any gateways: claims exist for user rows only, a non-NULL chat has at most one task `processing`, and a live gateway remembers every task it has a claim row for |
| PoolSafety.ProcessingImpliesClaim | lib/channels/postgres_channel.py:406-428 | every run without priority commands: a `processing` user row has a claim, even when stale gateways finish, fail, defer or release tasks others now hold |
| PoolSafety.CoveredIff | lib/channels/postgres_channel.py:514-531 | of all steps of any gateway, exactly those break processing ⇒ claim that delete their gateway's own claim on a task in work: the end of a command and a delayed drop |
| PoolSafety.CoveredThroughoutIff | lib/channels/postgres_channel.py:409-424 | every run of any steps: the invariant holds throughout exactly when no such delete happens |
| PoolSafety.CommandsUncover | lib/channels/postgres_channel.py:893-901 | after the end of such a command the next repair by any gateway makes the task `error` with the same retry count |
| PoolSafety.BackingIff | lib/channels/postgres_channel.py:406-428 | of all steps of any gateway, exactly those break claim ⇒ processing that take a claimed task out of work and leave the claim: a cancellation, a deferral, a final or failure of a gateway without the claim, a shutdown returning another's task; and it names the tasks |
| PoolSafety.BackingThroughoutIff | lib/channels/postgres_channel.py:409-424 | every run of any steps: claim ⇒ processing holds throughout exactly when no such step happens |
| PoolSafety.ReclaimRemovesStranded | lib/channels/postgres_channel.py:507-512 | a repair by any gateway removes a claim exactly when its task is not processing or the claim is revocable |
| PoolSafety.StrandedUntilReclaim | lib/channels/postgres_channel.py:431-512 | after such a step claim ⇒ processing fails, and after the next repair by any gateway it holds |
| PoolSafety.RetriesCountFailures | lib/channels/postgres_channel.py:453-483 | every run: `retry_count` never decreases and equals the number of counted failures; the count that reaches the limit makes the row `failed`, no earlier one does |
| PoolSafety.RetriesBounded | lib/channels/postgres_channel.py:1402-1439 | every run whose deferrals find their task processing: an unfinished user row has fewer than `max_stuck_retries` retries |
| PoolSafety.DeferKeepsBoundIff | lib/channels/postgres_channel.py:1267-1274 | a deferral keeps that bound exactly when the row it puts back has retries left |
| PoolSafety.FinishedRowsUntouched | lib/channels/postgres_channel.py:431-512 | any sequence of claims, heartbeats, reclaims, repairs and shutdowns by any gateways leaves a completed, failed or cancelled user row as it was |
| PoolSafety.SkippedHeartbeat | lib/channels/postgres_channel.py:359-364 | a gateway with no lease in memory has no claim row, so the heartbeat it skips changes nothing |
| PoolSafety.StopLeavesNoClaim | lib/channels/postgres_channel.py:533-555 | after a shutdown no claim row of that gateway is left |
| PoolSafety.ClaimStep | lib/channels/postgres_channel.py:514-531 | over any step, a claim appears only by claiming, never changes hands, and disappears exactly in the listed cases |
| PoolSafety.UserRowStep | lib/channels/postgres_channel.py:1105-1141 | what each step of the machine makes of one user row, derived from the transactions on whole tables |
| SingleOwner.OneOwner | lib/channels/postgres_channel.py:335-366 | every disciplined run, crashes included: one live gateway at a time holds a task, a held task has its holder's claim or was cancelled, and no task is answered twice |
| SingleOwner.StopKeepsOwnedIff | lib/channels/postgres_channel.py:307-326 | a shutdown keeps this exactly when no lease it returns on its way out is of a task in work that another gateway holds |
| SingleOwner.OverlapStartsIff | lib/channels/postgres_channel.py:1235-1237 | exactly when two live gateways come to have one task in `_leases`: one claims a task the other still lists |
| SingleOwner.OverlapIsOnItsWayOut | lib/channels/postgres_channel.py:1267-1275 | and there the task is on its way out: only the deletion of the old claim is to come |
| SingleOwner.HoldingStarts | lib/channels/postgres_channel.py:1100-1142 | the only step by which a gateway comes to hold a task is its own claim of a task nobody holds |
| SingleOwner.HeldRow | lib/channels/postgres_channel.py:1414-1419 | no step of another gateway changes the status of a held task; only a user can cancel it |
| SingleOwner.HeldClaim | lib/channels/postgres_channel.py:433-445 | no step removes the claim of a held task that is processing |
| PoolWitnesses.StaleDeferBreaksBound | lib/channels/postgres_channel.py:1267-1274 | a reachable state in which a stale deferral has put back a task with no retries left |
| PoolWitnesses.LeasesOverlapInDeferral | lib/channels/postgres_channel.py:1268-1274 | a reachable disciplined state in which two live gateways have one task in `_leases`: held tasks, not all leases, are exclusive |
| PoolWitnesses.StopLosesOwner | lib/channels/postgres_channel.py:307-326 | a run, disciplined but for one shutdown in the middle of a deferral, after which two gateways hold one task |
| PoolWitnesses.CommandUncovers | lib/channels/postgres_channel.py:898-901 | a reachable state in which the end of a command uncovers its task |
| PoolWitnesses.DropUncovers | lib/channels/postgres_channel.py:1794-1806 | a reachable state in which the delayed claim delete after a cancelled final uncovers a task the same gateway has re-claimed meanwhile |
| PoolWitnesses.CancelAndDeferStrand | lib/channels/postgres_channel.py:1267-1275 | a reachable disciplined state in which a cancellation, or the deferral, leaves the claim on a task out of work |
| PoolWitnesses.StopStrands | lib/channels/postgres_channel.py:542-555 | a reachable disciplined state in which a shutdown does |
| PoolWitnesses.StaleFinalStrands | lib/channels/postgres_channel.py:1843-1878 | a reachable state in which the late final of a gateway whose lease was revoked does |
| PoolWitnesses.StaleFailureStrands | lib/channels/postgres_channel.py:1402-1439 | and its late failure |
| CommandRounds.CommandsRestart | lib/channels/postgres_channel.py:893-901 | under every setting and for every n: a legal run of healthy gateways in which one command task is claimed n times and `retry_count` is 0 |
| PoolSteps.RevokeStep | lib/channels/postgres_channel.py:446-487 | revoking expired tasks one by one, in any order, is revoking them all at once |
| PoolSteps.ReleaseStep | lib/channels/postgres_channel.py:542-555 | returning leases one by one, in any order, is returning them all at once |
| SingleMode.FirstInFirstOut | lib/channels/postgres_channel.py:1179-1207 | every run: once a message of a chat is processing or has ended other than by cancellation, every earlier one of the chat is neither pending nor processing, unless the later one was claimed as a command; unstick, late finals and cancels included |
| SingleMode.TakeKeepsOrderIff | lib/channels/postgres_channel.py:1168-1201 | a claim breaks the order exactly when it starts a message while an earlier one of its chat is open |
| SingleMode.OrdinaryTakeKeepsOrder | lib/channels/postgres_channel.py:1187-1201 | an ordinary claim never does |
| SoloWitnesses.CommandOvertakes | lib/channels/postgres_channel.py:1168-1201 | a reachable state in which a command runs and an earlier message of its chat waits |
| SingleMode.NothingYoungerIsClaimed | lib/channels/postgres_channel.py:1187-1201 | while an eligible `error` row stays and no command of its chat runs, no younger message of any chat is claimed but as a command |
| SingleMode.HeadStartsIff | lib/channels/postgres_channel.py:1187-1201 | the claim of the selected row starts it exactly when it is `pending`; an `error` row is refused and nothing changes |
| SoloWitnesses.BlockadeReached | lib/channels/postgres_channel.py:1187-1201 | one failed dispatch and its elapsed back-off reach such a state |
| SingleMode.ReopensIff | lib/channels/postgres_channel.py:1187-1201 | exactly one step makes a row that has ended, failed or is in `error` open again: the deferral of the poll that had claimed it |
| SingleMode.NeverReopened | lib/channels/postgres_channel.py:1187-1201 | every run: such a row, no poll being on it, is never pending or processing again, neither by a command nor by a time-out; an `error` row is never repeated |
| SingleMode.SoloIsSafe | lib/channels/postgres_channel.py:938-1012 | every run: at most one task in work per non-NULL chat; and the retry bound, if every deferral finds its task still processing |
| SingleMode.DeferKeepsBoundIff | lib/channels/postgres_channel.py:1267-1274 | a deferral keeps the bound exactly when the row it puts back has retries left |
| SoloWitnesses.StaleDeferBreaksBound | lib/channels/postgres_channel.py:965-1012 | a reachable state in which a deferral after the timeout has put back a failed task |
| SingleMode.RetriesCountFailures | lib/channels/postgres_channel.py:965-1012 | every run: `retry_count` never decreases and equals the number of timeouts and failures; the count that reaches the limit makes the row `failed`, no earlier one does |
| SingleMode.FinishedRowsUntouched | lib/channels/postgres_channel.py:965-1012 | any sequence of claims, timer rounds and shutdowns leaves a completed, failed or cancelled user row as it was |
| SingleMode.CreatedAtKept | lib/channels/postgres_channel.py:965-1012 | no step changes when a message was written |
| Integrity.HealRepairs | lib/channels/postgres_channel.py:431-512 | from arbitrary tables one pass restores processing ⇔ claim, leaves no orphaned placeholder and no claim it would still revoke |
| Integrity.HealSettles | lib/channels/postgres_channel.py:489-512 | steps 2 to 4 alone restore the invariant from arbitrary tables and add or alter no claim |
| Integrity.HealIsIdentityIff | lib/channels/postgres_channel.py:431-512 | a pass changes nothing exactly when the tables were consistent and nothing was revocable |
| Integrity.HealIdempotent | lib/channels/postgres_channel.py:431-512 | a second pass at the same time changes nothing |
| Integrity.GateSkipsNothing | lib/channels/postgres_channel.py:379-404 | when `_reclaim_needed` says no, the skipped pass is the identity |
| Integrity.OwnLeasesSurvive | lib/channels/postgres_channel.py:433-445 | a gateway's own pass keeps its claim on a processing task in its `_leases`, expired or not, and leaves the row alone |
| Integrity.HealUserRow | lib/channels/postgres_channel.py:446-496 | what a pass does to one user row: counted failure, repeatable error without a count, or nothing |
| Integrity.HealClaim | lib/channels/postgres_channel.py:507-512 | a claim survives a pass exactly when it is not revocable and its task is processing |
| Integrity.NoIssues | tools/check_worker_pool_integrity.py:93-142 | the tool reports nothing exactly when the tables are consistent and no lease has expired |
| Integrity.FixAt | tools/check_worker_pool_integrity.py:169-197 | the five statements together, row by row and claim by claim |
| Integrity.FixClearsChecksIff | tools/check_worker_pool_integrity.py:169-197 | after the repair every check is empty exactly when no unexpired claim was on an orphaned placeholder |
| Integrity.FixClearsChecks | tools/check_worker_pool_integrity.py:169-197 | with claims on user rows only, every check is empty after the repair |
| Integrity.ClaimedOrphanRemains | tools/check_worker_pool_integrity.py:184-197 | a database that takes two repairs |
| Integrity.HealClearsChecks | tools/check_worker_pool_integrity.py:93-142 | the channel's own pass with no lease in memory always leaves every check empty |
| Integrity.FixMirrorsHeal | tools/check_worker_pool_integrity.py:169-197 | tool and channel leave the same claims and the same user statuses, but for an expired task at its last try |
| Integrity.FixEqualsHealWithoutExpiry | tools/check_worker_pool_integrity.py:169-197 | with no expired lease tool and channel leave the same database |
| Integrity.FixKeepsRoles | tools/check_worker_pool_integrity.py:169-197 | the tool adds, removes and re-types no row |
| IntegrityTool.Check | tools/check_worker_pool_integrity.py:93-142 | the accumulated lines are exactly the issues of the tables, and empty exactly for consistent tables without expired leases |
| IntegrityTool.FixedIsRepaired | tools/check_worker_pool_integrity.py:169-197 | the five statements in order come to one pass: expired tasks requeued, unclaimed ones repeatable, orphans failed, all else untouched; a claim stays exactly when its lease lives and its task was processing |
| IntegrityTool.Fix | tools/check_worker_pool_integrity.py:169-197 | the live tables afterwards are that one pass, row by row and claim by claim |
| IntegrityTool.Run | tools/check_worker_pool_integrity.py:55-158 | the exit code, and when a run with `--fix` really leaves clean tables |
| Channel.PostgresChannel.constructor | lib/channels/postgres_channel.py:108-240 | a new channel has empty books and all its permits |
| Channel.PostgresChannel.ClaimOne | lib/channels/postgres_channel.py:1090-1146 | takes the oldest eligible task (what that is, column by column: the next four rows) under its own claim, or changes nothing because none is eligible |
| ClaimOrder.ClaimedWaits | lib/channels/postgres_channel.py:1100-1125 | the row taken is a wanted user row, pending or in `error` long enough, unclaimed, and nothing of its chat is processing |
| ClaimOrder.ClaimedIsOldest | lib/channels/postgres_channel.py:1100-1125 | and of all rows of which that is true none is older |
| ClaimOrder.NoOlderWaits | lib/channels/postgres_channel.py:1100-1125 | no older pending and unclaimed message of the same chat is passed over |
| ClaimOrder.OvertakenIff | lib/channels/postgres_channel.py:1110-1122 | exactly which older open messages of its chat an ordinary claim overtakes: those put back whose claim is still there |
| ClaimOrder.DeferredIsOvertaken | lib/channels/postgres_channel.py:1267-1275 | healthy gateways reach such a state under every setting |
| ClaimOrder.SingleIsOldest | lib/channels/postgres_channel.py:1179-1203 | in single mode the row selected is the oldest of those that satisfy its WHERE clause |
| ClaimOrder.SameLocalChatIff | lib/channels/postgres_channel.py:1236-1240 | when two messages are of one chat to a gateway's memory |
| Channel.PostgresChannel.ClaimOneSingle | lib/channels/postgres_channel.py:1179-1207 | takes the oldest eligible task if it is pending; nothing if none is eligible or the oldest is in `error` |
| Channel.PostgresChannel.LeaseTick | lib/channels/postgres_channel.py:355-366 | heartbeat, gate, repair, with other gateways in between; where the gate says no, the repair would have changed nothing; what the heartbeat renews: the next row |
| LeaseRenewal.BeatRenews | lib/channels/postgres_channel.py:359-364 | a heartbeat gives every claim of its gateway a whole timeout from now and changes nothing else |
| LeaseRenewal.LeaseStep | lib/channels/postgres_channel.py:1127-1134 | over any step of any gateway a lease is set by its claim, renewed by its holder's heartbeat, and not changed otherwise |
| LeaseRenewal.PunctualIsDisciplined | lib/channels/postgres_channel.py:355-366 | every run in which each live gateway sends a heartbeat at least once per timeout: no reclaim and no repair finds a lease of a live gateway expired |
| LeaseRenewal.PunctualGatewaysOwn | lib/channels/postgres_channel.py:335-366 | such runs with orderly finals and shutdowns: one live gateway at a time holds a task, with its claim, and no task is answered twice |
| LeaseRenewal.LateLosesTask | lib/channels/postgres_channel.py:433-445 | one second late is enough for two gateways to hold one task |
| Integrity.GateClosedIff | lib/channels/postgres_channel.py:379-404 | the gate says no exactly when no row is in work and no claim is there |
| Channel.PostgresChannel.ReclaimPass | lib/channels/postgres_channel.py:431-512 | the loop over returned rows, in any order, is the pass of the run theorems and ends consistent from any tables |
| Channel.PostgresChannel.RevokeTask | lib/channels/postgres_channel.py:446-487 | one body of the loop counts one failure against one processing task and its replies (row by row: the next four rows) |
| Replies.RevokedReply | lib/channels/postgres_channel.py:446-487 | a reply of a revoked task, column by column: deleted while tries are left if processing or failed, failed with it at the last try if processing, else untouched; replies of other tasks are untouched |
| Replies.ReclaimedReply | lib/channels/postgres_channel.py:431-512 | the same over the whole pass |
| Replies.NoReplyWaits | lib/channels/postgres_channel.py:446-487 | no reply of a revoked task is left processing |
| Replies.UnstuckReply | lib/channels/postgres_channel.py:965-1021 | the timer of single mode: replies of overdue tasks are taken back with them, others fail when overdue themselves |
| Replies.UnstuckTask | lib/channels/postgres_channel.py:965-1010 | a user row is taken back exactly when it has been processing for longer than the timeout |
| Replies.TalkingTurnIsNotOverdue | lib/channels/postgres_channel.py:1696-1712 | a delivery or stored reasoning gives the placeholder a whole timeout more |
| Replies.PlacedReply | lib/channels/postgres_channel.py:1297-1312 | a placeholder is one new empty row in work for its task; no other row changes |
| Replies.ReleasedReplyIff | lib/channels/postgres_channel.py:542-555 | a shutdown deletes exactly the processing replies of the tasks it returns |
| Replies.FailedTurn | lib/channels/postgres_channel.py:1402-1439 | a failed turn: placeholder gone and task in `error`, or at the last try the error told in the placeholder and both failed; no other row changes |
| Replies.FailedCommand | lib/channels/postgres_channel.py:1402-1439 | without a placeholder the task alone |
| Replies.NoOrphans | lib/channels/postgres_channel.py:497-505 | every run of any gateways: no answer is without its user row |
| Replies.AbandonedForGood | lib/channels/postgres_channel.py:497-512 | the processing reply of an ended, unclaimed task stays so over any sequence of claims, heartbeats, reclaims, shutdowns and repairs |
| Replies.AbandonedReached | lib/channels/postgres_channel.py:507-512 | a cancellation, a crash and one repair reach such a state |
| Channel.PostgresChannel.ReleaseAllLeases | lib/channels/postgres_channel.py:533-555 | every lease returned, in any order, and `_leases` empty |
| Channel.PostgresChannel.UnstickProcessing | lib/channels/postgres_channel.py:938-1023 | exactly the timed-out tasks are recovered, in any order, then old placeholders fail |
| Channel.PostgresChannel.UnstickTick | lib/channels/postgres_channel.py:1039-1049 | the recovered tasks give back slot, context and lease; slots stay conserved |
| Channel.PostgresChannel.ReleaseSlot | lib/channels/postgres_channel.py:1988-2005 | permit, in-flight entry, chat and lease are given up together |
| Channel.PostgresChannel.PollOnce | lib/channels/postgres_channel.py:1229-1342 | an admitted poll, whatever the other gateways do at each await: the tables after every exit (nothing to take, cancelled, busy chat, no placeholder, failed dispatch, dispatched), and either the books untouched or exactly one task of a chat that was not busy in flight; the permit was free |
| Channel.PostgresChannel.BeginTurn | lib/channels/postgres_channel.py:1297-1319 | placeholder, permit, in-flight entry, busy chat and context begin together |
| Channel.BegunStaysValid | lib/channels/postgres_channel.py:1297-1319 | an admitted poll of a free chat gets its permit; after placeholder and bookkeeping the books are kept and every noted chat is the one its row names |
| Channel.TurnKeepsQuiet | lib/channels/postgres_channel.py:1297-1342 | and the books stay kept whether the dispatch succeeds or raises |
| Channel.TurnIsSlotRun | lib/channels/postgres_channel.py:1297-1342 | the books of such a turn are those of a legal run of the slots |
| Channel.PostgresChannel.PollPriority | lib/channels/postgres_channel.py:810-906 | the tables after every exit; a command takes no permit and no chat, and only a failed dispatch touches the slots, by releasing the chat it names |
| Channel.PostgresChannel.EndCommand | lib/channels/postgres_channel.py:893-901 | the claim goes, the row stays as it is |
| Channel.PostgresChannel.MarkFailed | lib/channels/postgres_channel.py:1374-1455 | one counted failure, its placeholder dropped or turned into the error reply, its claim, lease, slot and buffers gone |
| Channel.PostgresChannel.FinalizeTurn | lib/channels/postgres_channel.py:1718-1909 | the three ends of a turn, whatever the other gateways do at each await: cancelled, written with all reasoning first, or failed; each gives back slot, lease and context |
| Channel.PostgresChannel.WriteAnswer | lib/channels/postgres_channel.py:1843-1878 | own text and media unless empty, else what was delivered; the user row completed; the claim deleted |
| Channel.PostgresChannel.StoreReasoning | lib/channels/postgres_channel.py:1815-1839 | early reasoning, then the live buffer, appended to the stored reasoning |
| Channel.PostgresChannel.MergeToolDelivery | lib/channels/postgres_channel.py:1654-1716 | only content and media of the assistant row change; no status, claim, lease or slot; the text held stays in front and a new one is at the end |
| Channel.PostgresChannel.SendDelta | lib/channels/postgres_channel.py:1911-1971 | a delta is appended to its own stream and changes nothing else; the end closes the turn with the stream so far |
| Channel.PostgresChannel.SendReasoningDelta | lib/channels/postgres_channel.py:1514-1523 | the delta goes to the end of the buffer, or of the early list while the answer id is unknown |
| Channel.PostgresChannel.FlushReasoning | lib/channels/postgres_channel.py:696-727 | every buffer is appended to its own row once, in any order, and emptied |
| Refinement.PollRefines | lib/channels/postgres_channel.py:1229-1342 | in pool mode a poll, whatever the others do by legal steps at its awaits, is a legal run of the pool: claim, re-check, and one of its exits, with the same tables and leases |
| Refinement.CommandRefines | lib/channels/postgres_channel.py:810-906 | so is a priority command |
| Refinement.FinalRefines | lib/channels/postgres_channel.py:1718-1909 | so is a final: cancelled, placeholder and claim dropped; or reasoning stored and the turn finished or failed |
| Refinement.TickRefines | lib/channels/postgres_channel.py:355-366 | a tick of the lease loop is a heartbeat and a reclaim, whatever its gate says |
| SoloRefinement.PollRefines | lib/channels/postgres_channel.py:1229-1342 | in single mode a poll is a legal run of that mode's machine: claim, re-check, and one of its exits, with any steps of anything but the poll at the awaits, and the same table |
| SoloRefinement.CommandRefines | lib/channels/postgres_channel.py:810-906 | so is a priority command |
| SoloRefinement.FinalRefines | lib/channels/postgres_channel.py:1718-1909 | so is a final, with any steps at its awaits, polls included |
| SoloRefinement.RunKeeps | lib/channels/postgres_channel.py:1229-1342 | over every such run a user row stays a user row of its chat and a started task stays started |
| Refinement.RunKeepsRow | lib/channels/postgres_channel.py:1229-1342 | over every run a user row stays a user row of its chat, which is all a method assumes of its awaits |
| Channel.FinalClosesTurn | lib/channels/postgres_channel.py:1815-1878 | the final statements leave the assistant row that whole-turn assembly predicts, early reasoning first |
| Channel.FlushFlushesTurns | lib/channels/postgres_channel.py:709-727 | a flush leaves every row as a flush of its own turn does, and no other row |
| Turns.FinalAnswer | lib/channels/postgres_channel.py:1843-1877 | for any sequence of outbound messages and one final: non-empty final text or else the fold of the deliveries, and all reasoning stored |
| Turns.StreamedAnswer | lib/channels/postgres_channel.py:1945-1971 | a turn closed by a stream's end holds what was left under its key, then that stream's deltas in order, without the text of the closing call; the deliveries if there is neither |
| Turns.StreamedAnswerIsOwnIff | lib/channels/postgres_channel.py:1945-1971 | it is the turn's own answer exactly when nothing was left under the key, or the stream was empty and what was left is what the deliveries made |
| Turns.FinalLeavesStreams | lib/channels/postgres_channel.py:1718-1909 | an ordinary final leaves all streamed text under its key |
| Turns.LeftOverPrefixes | lib/channels/postgres_channel.py:1943-1971 | two turns on one key, the first closed by a final: its streamed text stands in front of the second's answer |
| Turns.StreamsApart | lib/channels/postgres_channel.py:1945-1948 | a stream's buffer is the concatenation of its own deltas, however they interleave |
| Turns.ReasoningConserved | lib/channels/postgres_channel.py:1514-1518 | stored reasoning followed by the buffer is the concatenation of all deltas, wherever flushes fall |
| Turns.OpenRow | lib/channels/postgres_channel.py:1654-1716 | short of a final the row holds the merged deliveries and keeps its status |
| Turns.TextMerged | lib/channels/postgres_channel.py:1699-1703 | the held text stays in front, a text that is neither empty nor all that is held follows in a paragraph of its own |
| Turns.NothingDeliveredIsLost | lib/channels/postgres_channel.py:1654-1716 | after any number of deliveries what was held is in front and every text delivered is somewhere in the row |
| Turns.DeliveriesInOrderIff | lib/channels/postgres_channel.py:1699-1703 | deliveries onto an empty row stand there in order, one paragraph each, exactly when none repeats all that was there before it |
| Turns.DeliveredAnswerIff | lib/channels/postgres_channel.py:1843-1877 | so the answer of a turn closed by an empty final |
| Channel.EarlyInOrder | lib/channels/postgres_channel.py:1815-1839 | early reasoning comes piece by piece in the order it came |
| Channel.BufferIsLast | lib/channels/postgres_channel.py:1815-1839 | and the live buffer after it |
| Turns.MediaMerged | lib/channels/postgres_channel.py:1691-1694 | old attachments stay in front, nothing is lost or invented, no duplicate is added |
| Turns.MediaMergedAlready | lib/channels/postgres_channel.py:1691-1694 | a repeated delivery adds nothing |
| Exchange.MessageExchange.constructor | lib/channels/message_exchange.py:50-66 | all permits free, nothing in flight |
| Exchange.MessageExchange.AcquireSlot | lib/channels/message_exchange.py:95-96 | one permit less, or none free |
| Exchange.MessageExchange.ReleaseSlot | lib/channels/message_exchange.py:104-113 | with a key the permit comes back once; balance of permits and keys is kept |
| Exchange.SlotsConserved | lib/channels/message_exchange.py:92-113 | every run: permits plus tasks in flight is the capacity, tasks in flight have distinct busy chats, and an admitted poll never waits for its permit |
| Exchange.ReleaseTwice | lib/channels/postgres_channel.py:1988-2005 | releasing is idempotent |
| Exchange.ReleaseKeepsBooksIff | lib/channels/postgres_channel.py:1988-2005 | releasing an id without a slot keeps the books exactly when it shares no chat with a task in flight |
| Exchange.BeginKeepsBooks | lib/channels/postgres_channel.py:1316-1319 | taking a slot for a new task of a free chat keeps the books |
| Exchange.FreeSlot | lib/channels/message_exchange.py:154-166 | `is_slot_free` and a free chat mean there is a permit and the task is not yet in flight |
| Exchange.EmptyChatSticks | lib/channels/postgres_channel.py:2003-2005 | a chat with an empty name, once busy, is busy in every later state and never begun again |
| Exchange.EmptyChatReached | lib/channels/postgres_channel.py:1316-1319 | one ordinary turn of such a chat makes it busy |
| Exchange.ReleaseFreesChatIff | lib/channels/postgres_channel.py:2003-2005 | a task in flight frees its chat exactly when the chat's name is not empty |
| Redis.RedisChannel.PollInbound | lib/channels/redis_channel.py:222-299 | whatever the message and the dispatch do, the permit taken is given back, and a poll of an idle exchange never waits |
| Redis.RedisChannel.Trim | lib/channels/redis_channel.py:296-298 | past the bound the oldest keys go, the newest stay |
| Redis.RedisChannel.Send | lib/channels/redis_channel.py:319-324 | the answer's own reply_to, else the remembered one, which is consumed |
| Redis.JustPutSurvivesIff | lib/channels/redis_channel.py:254-298 | over every map, above its bound or not: the chat just dispatched keeps its entry exactly when the bound is not exceeded or its key is among the newest that the trim keeps |
| Redis.SurvivesWithinBoundIff | lib/channels/redis_channel.py:254-298 | over a map within its bound: exactly when the trim keeps anything or is not reached |
| Redis.BoundKeptIff | lib/channels/redis_channel.py:254-298 | a poll takes the map above its bound exactly when it is full and a message of a new chat does not get to its dispatch |
| Redis.DispatchedButForgotten | lib/channels/redis_channel.py:254-298 | two messages after which a chat just dispatched has no entry |
| Redis.TrimBounds | lib/channels/redis_channel.py:296-298 | after a trim the map is within its bound and is a suffix of what it was |
| Redis.AnswerNamesRequestIff | lib/channels/redis_channel.py:254-324 | over every map: an answer after a dispatched request names that request exactly when the entry outlives the trim (or the request had no id), and once |
| Redis.AnswerTakes | lib/channels/redis_channel.py:319-324 | an answer's own reply_to is kept and the map left alone; else what is remembered for its chat, and only that, is taken |
| Redis.PollOutcomes | lib/channels/redis_channel.py:228-270 | which messages make a poll raise, wait or do nothing |
| Redis.FailedDispatchForgets | lib/channels/redis_channel.py:290-292 | a failed dispatch leaves no entry to answer |
| Redis.PutShape | lib/channels/redis_channel.py:254 | assignment changes one key, keeps the others, and appends a new one at the end |
| Redis.PoppedShape | lib/channels/redis_channel.py:292 | removal changes one key only |
| VectorBuild.VectorTable.BuildIndex | tools/build_vectors.py:474-755 | the loops, counters and early returns leave the specified store and report, for every pattern of failures, incremental and full |
| VectorBuild.ReportIsTrue | tools/build_vectors.py:645-712 | the report counts the entries that are new, and no error exactly when every chunk that was wanted is among them |
| VectorBuild.DeletedIsGoneIff | tools/build_vectors.py:585-596 | an obsolete key counts as deleted exactly when nothing is left of it |
| VectorBuild.UpdatedIsCurrentIff | tools/build_vectors.py:721-740 | a changed row counts as updated exactly when something of it landed and all vectors of its key are of its new text |
| VectorContent.ShortChunk | lib/services/text_splitter.py:187-190 | a row of short texts has one chunk, which contains every text under its name |
| VectorContent.LongChunks | lib/services/text_splitter.py:192-217 | a row with a long text: the longest, and first of those, is split; chunk i ends with its number and the i-th segment, and contains every other text before it |
| VectorContent.ShortTextIsEmbedded | tools/build_vectors.py:622-712 | after an error-free run over an empty index every text of a short row is in a stored vector |
| VectorContent.LongTextIsEmbedded | tools/build_vectors.py:622-712 | and of a row with a long text every segment in its own, every other text in all of them |
| VectorContent.LabelsInOrder | lib/services/text_splitter.py:177-184 | the columns with text come once each, in the order in which they are configured |
| VectorContent.JoinedConcat | lib/services/text_splitter.py:189-197 | and are joined in that order |
| VectorContent.DecimalReads | lib/services/text_splitter.py:209 | the numbers in the chunk labels read as what they count |
| TextSplitter.SplitByChars | lib/services/text_splitter.py:133-153 | segments are windows a fixed step apart; the last reaches the end of the text exactly when the overlap is positive or one segment is enough, else the first alone is kept |
| TextSplitter.NeverEndsIff | lib/services/text_splitter.py:146-152 | the loop runs for ever exactly when the overlap is not less than the segment and one segment is not enough |
| TextSplitter.PhraseIsWhole | lib/services/text_splitter.py:146-152 | a phrase that is not longer than the overlap is whole in some segment |
| TextSplitter.MergeIntoChunks | lib/services/text_splitter.py:80-130 | every part that fits is whole in a segment, in order; no segment is empty or too long; and each begins with the end of the one before it |
| TextSplitter.SplitText | lib/services/text_splitter.py:16-40 | the whole recursion: segments that fit, at least one for any text, and no phrase torn that has no separator in it and is not longer than the overlap |
| VectorBuild.Classify | tools/build_vectors.py:525-565 | one pass finds the new, the changed and the obsolete |
| VectorBuild.AllChunks | tools/build_vectors.py:622-641 | the chunks of all rows to insert, in order |
| VectorBuild.VectorTable.InsertChunks | tools/build_vectors.py:645-712 | a chunk is stored exactly when one of two embeddings and its INSERT work; every chunk is counted once, as inserted or as error |
| VectorBuild.VectorTable.DeleteKeys | tools/build_vectors.py:585-596 | the obsolete keys whose DELETE works are gone, in any order, and counted |
| VectorBuild.VectorTable.Supersede | tools/build_vectors.py:721-740 | old digests of changed keys that got a new vector are gone, nothing else |
| VectorBuild.NothingInserted | tools/build_vectors.py:609-620 | with nothing to insert the run only sweeps |
| VectorRuns.NoKeyLost | tools/build_vectors.py:542-740 | for every store and every pattern of failures: a key that had a vector keeps one, if it has a row, no blank row, and no two changed rows that differ |
| VectorRuns.NoRowLost | tools/build_vectors.py:542-740 | with distinct keys, a row that had a vector and still has text keeps at least one, whatever fails |
| VectorKeys.NoKeyLostIff | tools/build_vectors.py:542-740 | a key with text keeps a vector under every pattern of failures exactly under that condition |
| VectorKeys.CleanKeepsKeyIff | tools/build_vectors.py:542-740 | exactly when an error-free run keeps a vector for a key, keys distinct or not |
| VectorKeys.CollidingKeysLoseRow | tools/build_vectors.py:352-364 | two sources with colliding keys on which an error-free run empties the key |
| VectorRuns.KeptWholeIff | tools/build_vectors.py:725-729 | a key none of whose new chunks landed keeps every vector exactly when it is not obsolete or its DELETE fails, keys distinct or not |
| VectorRuns.ForeignKept | tools/build_vectors.py:589-592 | entries of other indexes stay, in order, whatever fails |
| VectorRuns.BuiltCount | tools/build_vectors.py:582-740 | what a run does to the copies of one entry, whatever fails |
| VectorRuns.ChunkSetCount | lib/services/text_splitter.py:156-217 | each chunk of the source, and nothing else, occurs once in its chunk set |
| VectorRuns.ChunksEmptyIff | lib/services/text_splitter.py:177-199 | a row has chunks exactly when it has search text |
| VectorRuns.ExistingIff | tools/build_vectors.py:367-374 | the keys read back are the keys stored under this index |
| VectorTruth.IncrementalIsFreshIff | tools/build_vectors.py:474-755 | an error-free incremental run over a store that indexed an older source leaves exactly the chunk set of the current source if and only if no key kept its search text while its chunks changed |
| VectorTruth.ShortTextsAlign | lib/services/text_splitter.py:187-190 | the condition holds when every text fits one chunk |
| VectorTruth.OneColumnAligns | lib/services/text_splitter.py:192-217 | the condition holds for an index with one embedding column |
| VectorTruth.RegroupingExists | tools/build_vectors.py:387-401 | two columns and one long text violate the condition, for every splitter and hash |
| VectorTruth.NextRunIsQuiet | tools/build_vectors.py:567-580 | after an error-free run the next one reports no change, regrouped keys included |
| VectorTruth.QuietRunChangesNothing | tools/build_vectors.py:571-580 | a run that reports no change is the identity |
| VectorTruth.RebuildIsFreshIff | tools/build_vectors.py:571-606 | an error-free full rebuild leaves exactly the chunk set if and only if something is embeddable or the index was empty |
| VectorTruth.IncrementalEqualsRebuild | tools/build_vectors.py:474-755 | incremental and full rebuild agree whenever a row is embeddable |
| VectorTruth.HistoryIsFresh | tools/build_vectors.py:474-755 | any number of error-free runs over aligned sources, from an empty index, leaves the chunk set of the last source |
| VectorTruth.CleanCount | tools/build_vectors.py:534-740 | an error-free run, entry by entry: old chunks where the search text is the same, new chunks elsewhere |
| VectorRecovery.CleanRunIsFreshIff | tools/build_vectors.py:474-755 | over any store at all, an error-free run leaves exactly the chunk set if and only if each indexed row with a current digest has exactly its chunks, and each other none of the current digest |
| VectorRecovery.RecoversIff | tools/build_vectors.py:645-740 | after a run with any failures the next error-free run leaves the chunk set if and only if of each new or changed row no chunk landed, or all did and the old ones went; and nothing was regrouped |
| VectorRecovery.FirstTriesDoNotMatter | tools/build_vectors.py:664-690 | a run in which only first embedding attempts fail ends as without any failure |
| VectorRecovery.PartialLandingSticks | tools/build_vectors.py:664-670 | a new row whose first chunk fails to embed: the next run reports no change and the chunk never comes |
| Jsonc.Strip | config.py:93-138 | the character machine computes what the lexer keeps |
| Jsonc.StripKeepsPieces | config.py:93-138 | for every text, the output read again is exactly the plain characters and string literals of the input, in order, and no comment |
| Jsonc.StripIdempotent | config.py:93-138 | for every text, stripping twice is stripping once |
| Jsonc.StripIsIdentityIff | config.py:93-138 | a text is unchanged exactly when it has no comment |
| Jsonc.StrippedIsKept | config.py:93-138 | the output is the input's pieces without its comments |
| Jsonc.LexFits | config.py:107-137 | the lexer splits every text into well-formed pieces that concatenate to it |
| Jsonc.LexUnique | config.py:107-137 | and that split is the only one |
| Jsonc.NeighboursIff | config.py:93-138 | two kept pieces of a text stand side by side in the output exactly when only comments stood between them |
| Jsonc.NumbersJoin | config.py:93-138 | a text in which two numbers become one |
| Profiles.DeepMerge | config.py:162-167 | the loop over the override computes the merge |
| Profiles.MergedAt | config.py:162-167 | path by path: the override decides every path it reaches and cuts off what lies below its scalars; every other path keeps the base |
| Profiles.LeafKeptIff | config.py:162-167 | exactly when a leaf of the base keeps its value |
| Profiles.NoLeafInvented | config.py:162-167 | every leaf of a merge is a leaf of one of the two |
| Profiles.LastLayerWins | config.py:451-467 | the last layer that says anything about a leaf path decides it |
| Profiles.StackedLeafIff | config.py:451-467 | a stack has a leaf exactly when some layer has it and every later one is silent there |
| Profiles.OverlayDominates | config.py:288-306 | over every configuration a valid overlay decides its six paths, and leaves the leaves it does not reach |
| Profiles.EmptyDictEscapes | config.py:322-330 | adding an empty dict keeps an overlay valid, and replaces a scalar it does not own |
| Profiles.ForeignLeafKeptIff | config.py:309-347 | a valid overlay leaves a foreign leaf alone exactly when it has nothing at its path and no owned key above it |
| Profiles.LeavesIff | config.py:322-330 | the collected paths are exactly those that end in a non-dict |
| Resolver.Resolve | config.py:432-481 | the sequence of merges, export, checks and expansion has the specified outcome in the exported environment; for production each leaf of the result is that of the file that decides it; a broken session file raises |
| Resolver.FileOrderIff | config.py:451-467 | the merged configuration leaf by leaf: secrets over config.json over session_manager.json over project.json, where the later file neither reaches the path nor cuts it off |
| Resolver.ResolvedLeaf | config.py:451-481 | what a successful resolve, of either profile, hands out for such a leaf |
| Resolver.ModesNeverShare | config.py:350-382 | whatever their files and environments: a production process and a test process share no runtime table, and neither uses one twice |
| Resolver.OverlayFaultIff | config.py:334-347 | what is wrong with a refused overlay: a missing key first, else an extra one |
| Resolver.EnvKeyIs | config.py:405-424 | the variable a leaf is exported as: its keys joined by underscores, blanks and hyphens turned into underscores, in upper case |
| Resolver.ExpandedItems | config.py:397-402 | expansion reaches into lists and leaves other scalars alone |
| Resolver.FlattenEnv | config.py:405-424 | every leaf has its variable and every variable its leaf |
| Resolver.ExportSecrets | config.py:277-285 | what was set stays; a flattened value without a placeholder is added under a name that was not set |
| Resolver.ResolvedHasTheNames | config.py:350-382 | a successful resolve has exactly the six expected names, in either profile |
| Resolver.TestResolvesIff | config.py:288-347 | the test profile resolves exactly when the overlay file holds the six owned leaves, nothing else, and they read as the expected names in the environment |
| Resolver.OwnedNameIsFixedIff | config.py:385-402 | the name a valid overlay gives is the same in every environment, hence under every lower layer, exactly when its text holds no reference |
| Resolver.AlwaysResolvesIff | config.py:432-481 | the test profile resolves under all lower layers and environments exactly when the overlay spells out the six names |
| Resolver.LowerLayerDecides | config.py:471-477 | one overlay with a reference that resolves or not by what a lower layer exports |
| Resolver.IsolatedIff | config.py:350-382 | the isolation check passes exactly when all six keys hold the expected names |
| Resolver.ExpandedAt | config.py:388-402 | expansion keeps the shape of the configuration and acts value by value |
| Environment.FixedTextIff | config.py:385-396 | the environment has no say in a text exactly when it holds no reference |
| Environment.ExpandParts | config.py:385-396 | any number of references, set or not, between any stretches of text: each is replaced in place, all else stays |
| Environment.EveryTextParts | config.py:385-396 | and every text is of that form |
| Environment.NoPlaceholderNoRef | config.py:283-285 | what the export lets through holds no reference |
| Environment.NothingSetStays | config.py:388-396 | with nothing set every reference stays as it is |

## Left out

- SQL text, psycopg2, connection pools, the asyncio scheduler and the Redis transport: tables are maps and steps are atomic.
- nanobot (agent loop, bus, router), `utils.db`, `utils.media`, `StartupGate`: not part of this model; a dispatch either succeeds or raises.
- The retry of `_claim_one` after an IntegrityError: with atomic transactions no claim is lost half-way.
- Exceptions of `_poll_once` other than those it catches (decoding of stored media or metadata): they leave the lease and the claim in place until a shutdown.
- `_resolve_turn_context` and `_cleanup_unresolvable_turn`: outbound messages come with their task and answer ids resolved.
- The unlocked race between `_flush_reasoning` and the final transaction: a flush is atomic.
- A database failure in the middle of `_flush_reasoning`, the rebuffering after it, and failures of the merge transaction.
- Media encoding, buttons, other metadata keys, journaling, terminal output, the context-window bridge and the cap on `_msg_ctx`.
- The timers and error back-off of the poll, lease and unstick loops: the run theorems take their rounds in any order.
- Worker ids that are reused after a crash.
- PoolSafety.ProcessingImpliesClaim: for runs without commands and without a re-claim inside a pending drop, as both break it; over all runs the exact statement is `PoolSafety.CoveredThroughoutIff`.
- Channel.PostgresChannel.PollOnce: the tables change during its awaits, the fields of its own channel do not; interleavings of the slots within one channel are the runs of `Exchange.SlotsConserved`, of which a turn alone is one (`Channel.TurnIsSlotRun`).
- SoloRefinement.PollRefines: assumes that no shutdown falls into an await of the poll.
- Refinement.FinalRefines: assumes, as the code does, that the answer's id is not that of a user row at any await; so does `SoloRefinement.FinalRefines`.
- Channel.PostgresChannel.PollPriority: as `PollOnce`; a command dispatched while its own task is still in flight from an earlier turn drops the chat note of that turn, as the code does.
- Channel.PostgresChannel.StoreReasoning: reads and writes the row in one step, as `FlushReasoning` does.
- VectorTruth.IncrementalIsFreshIff: the columns `content`, `row_data`, `max_src_track`, `synced_at` and the vectors themselves are not compared; they are not part of what decides a rebuild.
- The order in which `_get_existing_entries` reads the rows of one key: the last one read counts, and theorems about failures hold for every order of the store.
- `_normalize_cols`, `_format_content`, the dry run, FAISS, signatures and the quick check before a build.
- The regular expressions of `split_text`: where they cut is an arbitrary function that gives shorter, non-blank parts; `strip()` of the whole text is done before.
- TextSplitter.SplitByChars: for a positive segment size and where it ends, as `TextSplitter.NeverEndsIff` says; with a size of 0 nothing is cut.
- NULL content hashes: a stored entry always has a digest.
- Profiles.DeepMerge: on values; the sharing of nested dicts between the configuration and the layer they came from is not captured, as each layer is dropped after its merge.
- `load_env`, JSON parsing and `_LazySettings`: layers arrive as values.
- Environment names the operating system refuses, and the export of `LLM_API_KEY` after a resolve.
- A negative `reply_to_trim_to`, and messages of the Redis inbox that raise before the reply map is written.
- Streamlit, CLI, migrations, scoring, release scripts and the remaining tools: plumbing, or easy.
