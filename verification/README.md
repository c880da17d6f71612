# CodeDuel, modelled and proved in Dafny

CodeDuel lets two players race to solve a programming problem. Submissions and
matches are PostgreSQL rows, judge jobs travel through a Redis Stream, and
matchmaking is a Redis sorted set and hash kept in step by Lua scripts. This
project models the parts of the system that carry its guarantees and proves
those guarantees for every input, every run and every interleaving.

The project has four layers.

* **Tables and transactions** (`Base`, `Rows`, `RowUpdates`, `Submissions`,
  `JudgeStore`, `JudgeResult`, `Leases`, `MatchEnd`, `MatchCreation`,
  `Dispatch`, `Stream`, `SortedSet`, `MatchQueue`, `PopPair`, `AnyKeys`). The database
  is a value, a transaction is a function from database to database, and `DbInv` says
  what the schema and the services keep true of it: row lifecycles, the attempt
  cap, scores, the standing of every match, the active-claims table and the
  uniqueness of requests. The invariant is inductive over every transaction.
* **Protocols** (`Protocol`, `ProtocolSafety`, `ProtocolHistory`,
  `ProtocolTheorems`, `StepFacts`, `DueTimes`, `Hands`, `ProtocolPublication`, `UnbackedClaims`,
  `UntimelyRun`, `BusyWorkers`, `Recovery`, `Delivery`, `RowLocks`, `QueueRuns`,
  `Matchmaker`, `LostPlayers`, `UserLocks`). State
  machines whose steps are single transactions, Lua scripts, stream commands or, in
  `RowLocks` and `UserLocks`, single statements with the locks as state. Any number
  of workers, dispatchers, reapers and gateways interleave, crash and retry.
* **Objects** (`Tables`, `Workers`, `Services`, `RedisScripts`, `MatchService`).
  The services as classes with fields, loops and faults, each method proved
  equal to the transaction function or script function it implements.
* **The sandbox** (`Outputs`, `SandboxEngine`, `Sandbox`). The comparison of outputs,
  and the judging loop over an engine
  whose calls take any time within their contexts and may fail before or after
  taking effect.

Where to start reading: `Rows.DbInv`, `Protocol.Step`, then `ProtocolTheorems`.

Assumptions the theorems name explicitly: transactions are atomic under the locks
they take (and `RowLocks` proves that for admission and settlement, with claims,
completions, reclaims, enqueue marks and match creation committing between their
statements), Lua scripts and stream commands are atomic, identifiers and tokens are
drawn fresh, an engine call returns when its context ends and fails when its context
has already ended, and, for `AtLeastOnce` and `AlwaysDelivered` alone, that claims are
backed: whenever a claim acquires a submission, some pending entry of it is neither
still to be claimed through nor about to be replaced or removed by a reaper.

That last condition is exact. `UnbackedClaims.ClaimMustBeBacked` shows that a claim
without such an entry lets a continuation of otherwise backed claims lose the result,
and `UntimelyRun.UntimelyWorkerLosesResult` is a whole run that does. A claim within
StreamMinIdle of reading is backed (`BusyWorkers.ClaimedInTime`), however long the
worker then takes. `BusyWorkers.NeverSweptWhileRunning` derives the stronger fact that
no busy worker ever loses its entry from the validated lease inequality, the bound
that `Sandbox.ExecuteUnderLease` proves of executing, and stated delays before and
after it.

What decides each operation, the comparisons on leases, deadlines, enqueue marks, idle
times, presence and outputs, is stated once more on its own, row by row and without the
functions that compute it: `Leases.ReclaimMeaning`, `MatchEnd.SettleMeaning`,
`Dispatch.RoundMeaning`, `Workers.ReclaimIdleMeaning`, `JudgeStore.ClaimSucceedsIff`,
`JudgeResult.TerminalMeaning`, `Outputs.PlainMatchesIff`, and `AnyKeys` for the four
scripts on any keys. `DueTimes` carries leases and deadlines to whole runs: nothing
takes a submission from an attempt before its lease is over, and a match that is over
before its deadline was won by a full pass.

Three promises hold only with a condition. Players popped from the queue are not
forgotten, with exceptions: `LostPlayers.LostExactly` says by place who is lost by
which step, the service's own being the lost reply of a pop that took effect and a
crash with players in hand who are neither queued nor matched, and
`LostPlayers.LostReply` is an example. A scan limit of 1 never produces a pair
(`PopPair.LimitOneStarves`), so `PopPair.PairsComeOut` asks for 2. Normalising an
output twice can differ from normalising it once: `Outputs.ReplacedBeforehandIff` says
that this happens exactly if it has two '\r' and a '\n' in a row.

## Model

| member | source | states |
|---|---|---|
| Submissions.AcceptMeaning | internal/submission/service.go:46-144 | an accepted call names a row of exactly this request; a refusal or a used key writes nothing; a used key answers with its row or with a conflict; only a request past every check inserts one row, pending, never enqueued and without attempts; a request is invalid exactly if a field is empty or its language is none of the three |
| Submissions.AcceptKeeps | internal/submission/service.go:46-124 | admission keeps the whole table invariant and only adds to what was there |
| JudgeStore.ClaimMeaning | internal/judge/store.go:93-247 | what each disposition of a claim means in the tables; an acquired claim writes one attempt with its token and lease and nothing else, and hands out the row's own language, source, problem, tests and players; a stored result is told as row and match have it |
| JudgeStore.ClaimSucceedsIff | internal/judge/store.go:93-247 | a claim acquires a submission, hands out its result, reports an error or finds nothing, each exactly in its own case of status and tests |
| JudgeStore.RunningClaims | internal/judge/store.go:157-166 | a running submission is live exactly while the time is before its lease, and expired from then on |
| JudgeStore.ClaimExactly | internal/judge/store.go:93-247 | on any tables, every disposition of a claim exactly in its own case of row, tests, players, language and source |
| JudgeStore.CompleteExactly | internal/judge/store.go:249-312 | on any tables, a completion is refused, applied or without ownership exactly in its own case, and only an applied one writes |
| JudgeStore.ClaimKeeps | internal/judge/store.go:226-241 | claiming keeps the table invariant, attempt cap included |
| JudgeStore.CompleteMeaning | internal/judge/store.go:249-350 | a completion applies if and only if its attempt owns the running row; then one row gets verdict, failure, passed tests and finish time, the returned record tells row and match, and a pass leaves the match with a winner; otherwise nothing changes |
| JudgeStore.CompleteDecides | internal/judge/store.go:314-336 | the first pass of an active match wins it for its submitter and frees exactly its players; no other completion touches a match or a claim |
| JudgeStore.CompleteKeeps | internal/judge/store.go:249-350 | completion, with the finish of the match it may cause, keeps the table invariant and freezes what was finished |
| JudgeStore.WinnerTakesAll | internal/judge/store.go:314-336 | a passing submission has a score nobody in its match can exceed |
| JudgeResult.TerminalMeaning | internal/judge/result.go:21-47 | an outcome is refused exactly when it counts too many passed tests, or is a pass that does not count all; otherwise its verdict and failure kind are those of its kind, each written out, and its passed tests stay |
| JudgeResult.StoredRecordsAnnounce | internal/judge/result.go:49-99 | a record of the tables always builds two events, one per player in slot order, with distinct ids; with a winner they are winner results, Won exactly for the stored winner and Lost for the other; without one they are undecided submission results |
| JudgeResult.EventsRefused | internal/judge/result.go:49-69 | events are refused exactly for nil ids, wrong counts, or players and a winner that do not fit |
| JudgeResult.RebuiltFits | internal/judge/store.go:167-198 | the record rebuilt from a completed row fits the tables, and a pass has a winner |
| Leases.ReclaimMeaning | internal/reaper/leases.go:31-62 | a reclaim touches a row exactly if it is running, its lease is absent or not after now, nobody has it locked and fewer than a batch of such rows come before it by lease, absent first, then id; it becomes pending, unmarked and free with an attempt left and a failed result without |
| Leases.ReclaimAllMeaning | internal/reaper/leases.go:31-62 | one statement rewrites exactly the rows of its page, each once, to pending or to failed by its attempts |
| Leases.ReclaimAllKeeps | internal/reaper/leases.go:31-62 | reclaiming any page keeps the table invariant, so reset rows still have attempts left |
| Leases.ReclaimDrains | internal/reaper/leases.go:31-62 | at an unmoved clock a reclaim takes exactly min(batch, size) rows off the expired set |
| MatchEnd.SettleMeaning | internal/reaper/matches.go:31-156 | a batch finishes a match exactly if it is active, its deadline is not after now, nobody has it locked, fewer than a batch of such matches come before it by deadline and id, and none of its submissions is open; the winner is whoever has a completed submission with more passed tests than any of the other; no submission changes, and exactly the claims of the finished matches go |
| MatchEnd.ReportsAll | internal/reaper/matches.go:59-78 | the loop reports exactly the matches it closes, with players, scores, total and winner as stored |
| MatchEnd.FinalizeExactly | internal/reaper/matches.go:81-156 | on any tables, a match is closed exactly if it is active and undecided, has two different players and no open submission |
| Rows.BestMeaning | internal/reaper/matches.go:95-103 | the score of a player is the highest number of passed tests among the completed submissions, and 0 without one |
| MatchEnd.FinalizeMeaning | internal/reaper/matches.go:81-156 | an active match is settled if and only if none of its submissions is open, and then the stored winner is exactly the player strictly ahead by best score; the report says what is stored |
| MatchEnd.FinalizeKeeps | internal/reaper/matches.go:81-156 | settling keeps the table invariant: the winner is unbeaten, a draw means equal bests |
| MatchEnd.TiebreakIsFair | internal/reaper/matches.go:13-21 | the tiebreak never crowns a player who is behind, and declares a draw only at equality |
| MatchEnd.FinalizeAllKeeps | internal/reaper/matches.go:23-79 | settling any list of matches keeps the table invariant |
| MatchCreation.CreateMeaning | internal/match/create.go:60-161 | creation succeeds if and only if both users exist, differ, have no active match and a problem exists; then the answer's id, problem and deadline are those of the stored match, the deadline is the duration from now, no problem is older, and nothing else changes but the two claims; the checks rule out the primary-key violation; otherwise nothing is written and the error names exactly who is missing or claimed |
| MatchCreation.CreateKeeps | internal/match/create.go:60-161 | creation with its triggers keeps the table invariant |
| MatchCreation.OpenedClaims | internal/infrastructure/migrations/000007_active_match_claims.up.sql:21-40 | inserting two players of an active match keeps the claims table equal to active membership |
| RowUpdates.ClaimsAfterFinish | internal/infrastructure/migrations/000007_active_match_claims.up.sql:42-60 | finishing a match drops exactly its claims |
| RowUpdates.FinishKeepsInv | internal/judge/store.go:314-336 | finishing an active match is safe exactly in the cases in which the services do it: an unbeatable winner, or everything completed |
| Dispatch.RoundMeaning | internal/submission/dispatch.go:79-118 | a dispatch round marks a row exactly if it is pending, never enqueued or not within the stale interval, not locked, and fewer than a batch of such rows are older; the mark is all that changes |
| Dispatch.MarkMeaning | internal/submission/dispatch.go:55-61 | one mark gives a pending row the time and changes nothing else |
| Dispatch.MarkAllMeaning | internal/submission/dispatch.go:104-118 | a dispatch round marks exactly the pending rows of its page |
| Dispatch.MarkAllKeeps | internal/submission/dispatch.go:104-118 | marking any page keeps the table invariant |
| Dispatch.DispatchDrains | internal/submission/dispatch.go:67-123 | at a frozen clock a dispatch round takes exactly min(batch, size) rows off the due set |
| Base.OldestIsPage | internal/submission/dispatch.go:79-90 | ORDER BY key, id LIMIT n: as many rows as fit, none twice, in order, nothing left out that comes earlier |
| Base.OnPageIff | internal/submission/dispatch.go:79-90 | a row is on the page if and only if fewer rows than the limit come before it |
| Stream.FinalizeMeaning | internal/redisx/judge_queue.go:17-28 | finalising takes effect exactly on pending entries, never removes an undelivered one, reports failure exactly for those, and is idempotent |
| Stream.DeliverKeeps | internal/redisx/judge_queue.go:82-123 | delivery keeps every entry in exactly one place |
| ProtocolSafety.StepKeeps | internal/judge/service.go:96-184 | every step of every component keeps tables, stream, program counters, marks, results and accepted calls consistent |
| ProtocolSafety.StepLater | internal/judge/store.go:93-350 | no step undoes anything: finished matches, completed rows, issued tokens, published events and returned records stay |
| ProtocolHistory.StepLog | internal/judge/store.go:219-232 | every step extends the lifecycle log lawfully and lowers the rank (remaining attempts, status) of the row it moves |
| ProtocolTheorems.Fencing | internal/judge/store.go:285-312 | in any run a completion that took effect belongs to the latest claim with no reclaim since, its token was drawn by that claim alone, and the submission never moves again |
| ProtocolTheorems.StaleCompletions | internal/judge/store.go:285-312 | a worker completes its submission exactly if its claim is the latest transition; a stale completion changes no row |
| ProtocolTheorems.AttemptsBounded | internal/reaper/leases.go:31-62 | in any run a submission starts at most MaxAttempts times and moves at most 2*MaxAttempts times; pending means attempts left, running means 1..MaxAttempts |
| ProtocolTheorems.OutcomeSound | internal/judge/store.go:249-350 | in every reachable state an active match has no winner and no pass; a finished one has a playing, unbeaten winner or equal bests |
| ProtocolTheorems.OutcomeFixed | internal/reaper/matches.go:81-156 | finished is absorbing: winner fixed, never overtaken by later results, a draw stays a draw in score |
| ProtocolTheorems.SettlementFinal | internal/reaper/matches.go:81-156 | when the reaper settles a match every submission it ever gets is completed, so the compared scores are final |
| ProtocolTheorems.Reconstruction | internal/judge/store.go:167-198 | a later claim of a completed submission rebuilds the record Complete returned, except that a missing winner may have been filled in once; for a pass it is identical |
| ProtocolTheorems.EventsTruthful | internal/judge/service.go:162-177 | every event ever delivered goes to a player of the match and tells the stored outcome; equal event ids mean equal events |
| ProtocolTheorems.IdempotentAdmission | internal/submission/service.go:46-144 | over any run one row per player and request; repeating the request returns its id even after the match ended, another payload is a conflict and writes nothing |
| ProtocolTheorems.ClosedForGood | internal/submission/service.go:77-109 | once a match is finished in a run, every later first request for it, at any time, is refused as not active to a player and as no member to anyone else, and writes nothing |
| ProtocolTheorems.OneActiveMatch | internal/infrastructure/migrations/000007_active_match_claims.up.sql:21-60 | in every reachable state the claims table is exactly active membership, so a player is in at most one active match |
| ProtocolTheorems.StreamConserved | internal/redisx/judge_queue.go:17-28 | every entry ever added is undelivered, pending or gone, in exactly one way; an enqueue mark implies an entry was added earlier |
| ProtocolTheorems.EntriesLeaveByFinalise | internal/redisx/judge_queue.go:17-28 | over any run an entry is gone if and only if one step finalised it while it was pending, by a judge's acknowledgement or a reaper's removal, and it never comes back |
| StepFacts.ClaimStepExactly | internal/judge/service.go:96-134 | after a claim a worker is about to discard malformed jobs, missing submissions and live attempts, announces stored results, executes pending ones with their own source and language, and leaves the rest alone; the entry stays where it is |
| StepFacts.FinishStepExactly | internal/judge/service.go:135-160 | a completion by the owning attempt is announced from its first recipient on, any other is dropped without writing |
| StepFacts.PublishStepExactly | internal/judge/service.go:162-177 | the calls follow one another a failure notwithstanding, and the entry is discarded exactly if none failed |
| StepFacts.CheckStepExactly | internal/reaper/stream.go:49-80 | entries of malformed jobs and missing submissions are about to be removed, of running ones stay, all others are about to be replaced |
| StepFacts.SweepStepExactly | internal/redisx/judge_queue.go:127-165 | an entry changes hands exactly after streamMinIdle without delivery, and keeps its job |
| StepFacts.EntryStepsExactly | internal/redisx/judge_queue.go:82-123 | a worker takes the oldest undelivered entry, and acknowledging removes it |
| StepFacts.ReplacementExactly | internal/reaper/stream.go:68-73 | the replacement is appended, then marked if its row is pending, and only then the old entry goes |
| StepFacts.DispatchStepsExactly | internal/submission/dispatch.go:45-63 | a job is appended for any known submission, and its row marked afterwards if it is pending |
| DueTimes.LeaseProtects | internal/judge/store.go:219-232 | in any run, until attemptLease after a claim its submission is neither reset nor poisoned, and a completion that the worker makes by then is applied, stored and logged |
| DueTimes.EarlyEndsAreWon | internal/reaper/matches.go:33-36 | in every reachable state a match that is over before its deadline has a winner, with a completed submission of the winner that passes all tests |
| DueTimes.ReclaimStepIff | internal/reaper/leases.go:31-62 | the protocol takes a row from its attempt exactly if it is running and out of lease, and resets or poisons it by its attempts |
| DueTimes.SettleStepIff | internal/reaper/matches.go:33-40 | the protocol settles exactly active matches whose deadline has come, and only as the scores say |
| ProtocolPublication.AtLeastOnce | internal/judge/service.go:96-177 | in every run in which claims are backed, every submission finished by Complete has had its result delivered to both players or still has an entry nobody is about to remove, through crashes, publish failures, late workers, reaper replacement and sweeps from busy workers |
| UnbackedClaims.ClaimMustBeBacked | internal/reaper/stream.go:49-80 | after any such run, an acquired submission has a safe entry right after its claim if and only if every continuation with backed claims that returns its result has told both players or still has an entry for it |
| UntimelyRun.UntimelyWorkerLosesResult | internal/reaper/stream.go:49-80 | a run of the code's own steps in which one claim alone, late and through an entry already removed, is not backed ends with a completed submission announced to nobody, an empty stream and a row no dispatcher will enqueue |
| BusyWorkers.UndisturbedIsBacked | internal/judge/service.go:96-160 | claims are backed in every run in which no reaper takes an entry from a worker that has read it and not yet claimed |
| BusyWorkers.ClaimedInTime | internal/config/config.go:136-153 | if every worker claims, or dies, within StreamMinIdle of reading, claims are backed and results are published at least once, however long executing and publishing take |
| BusyWorkers.NeverSweptWhileRunning | internal/config/config.go:96-153 | with the lease above the longest attempt and StreamMinIdle above the lease with room for claiming and announcing, no reaper ever takes an entry from a busy worker, if workers claim, execute and announce within their times or die |
| Delivery.AlwaysDelivered | internal/judge/service.go:96-177 | from every state reached with backed claims, some finite continuation with backed claims and without any crash or failed publish tells both players of every result ever returned |
| ProtocolPublication.SweeperPublishes | internal/reaper/stream.go:49-80 | replace-then-finalise never leaves an unannounced result without an entry |
| Recovery.AlwaysRecoverable | internal/submission/dispatch.go:67-123 | from every reachable state, even after the stream lost everything, finitely many ordinary rounds complete any admitted submission of a well-formed problem, whatever verdicts come and whatever the batch limits |
| Recovery.ReclaimCloser | internal/reaper/leases.go:31-62 | one reclaim batch either takes the expired attempt or leaves fewer expired ones |
| Recovery.DispatchCloser | internal/submission/dispatch.go:67-123 | one dispatch batch either queues the due row or leaves fewer due ones |
| Recovery.JudgeRuns | internal/judge/service.go:96-160 | a judge round by an idle worker always goes through, takes one entry off the queue, completes its submission if it can be judged and touches no other row |
| RowLocks.StepRefines | internal/submission/service.go:77-124 | statement by statement, with advisory and match row locks as state and claims, completions, reclaims, enqueue marks and match creations in between: each step keeps the invariant and changes the tables exactly as the atomic transaction committing there |
| RowLocks.RunRefines | internal/submission/service.go:46-124 | every interleaving of the statements of Accept and finalizeMatches with the other services' transactions equals whole transactions run one after the other in commit order |
| RowLocks.AnswersAtomically | internal/submission/service.go:46-124 | the answer of an interleaved Accept is the answer of the atomic one at the step that answers, at the time this transaction read from the clock, which is not in the future |
| RowLocks.SettlementIsFinal | internal/reaper/matches.go:33-92 | a match settled under the lock never gets another submission and keeps its scores and the winner they decide |
| RowLocks.SettledWhenDue | internal/reaper/matches.go:33-40 | under any interleaving of statements the reaper finishes no match before its deadline |
| RowLocks.StagedCommit | internal/reaper/matches.go:54-75 | committing a batch of staged results is settling those matches one by one |
| SortedSet.AddMeaning | internal/redisx/scripts/enqueue.lua:23-28 | adding at a free score keeps the rank order strict and the other members where they were |
| MatchQueue.EnqueueKeeps | internal/redisx/scripts/enqueue.lua:5-31 | sorted set and hash stay one map from users; a reconnect keeps its score, a newcomer gets one above every score issued, even if the clock went back |
| MatchQueue.DequeueKeeps | internal/redisx/scripts/dequeue.lua:3-10 | only the exact current connection is removed, from both structures |
| MatchQueue.RequeueOneKeeps | internal/redisx/scripts/requeue.lua:3-25 | an entry goes back at its old score exactly if its user is present and not queued |
| AnyKeys.EnqueueExactly | internal/redisx/scripts/enqueue.lua:5-31 | on any keys: a user whose stored member is listed keeps the score under the new member; anyone else gets the server time, or one above the last score if that is no later; which entries and fields this writes |
| AnyKeys.DequeueExactly | internal/redisx/scripts/dequeue.lua:3-10 | on any keys: only a field holding exactly this member goes, with its entry, and the answer is whether there was one |
| AnyKeys.RequeueExactly | internal/redisx/scripts/requeue.lua:3-25 | on any keys: an entry is restored exactly for a present user without a field, or with this very field and no entry |
| AnyKeys.PopExactly | internal/redisx/scripts/pop_pair.lua:17-57 | on any keys: a pop removes exactly the window's malformed, superseded and disconnected entries and the pair, and the hash fields that point at them |
| AnyKeys.PairExactly | internal/redisx/scripts/pop_pair.lua:17-50 | on any keys: the pair is the first two valid, current and connected entries of the window, and there is one as soon as the window has two |
| PopPair.ChosenIsOldest | internal/redisx/scripts/pop_pair.lua:17-50 | the pair chosen from a window is the two oldest live members of the whole queue |
| PopPair.PopConserves | internal/redisx/scripts/pop_pair.lua:17-57 | the live members before a pop are the pair followed by the live members after it |
| PopPair.PopKeeps | internal/redisx/scripts/pop_pair.lua:10-15 | a pop removes its users from both structures and nobody else |
| PopPair.PairDistinct | internal/redisx/queue.go:121-141 | the two popped entries decode and name two users |
| PopPair.PairsComeOut | internal/redisx/scripts/pop_pair.lua:17-57 | with scan limit at least 2 and two live members, repeated pops yield the two oldest in fewer calls than the queue has entries |
| PopPair.LimitOneStarves | internal/redisx/queue.go:48-53 | a scan limit of 1 never yields a pair |
| QueueRuns.RunKeeps | internal/redisx/scripts/requeue.lua:3-25 | any sequence of scripts keeps both structures in agreement and every score with the user it was issued to |
| QueueRuns.ReachableQueue | internal/redisx/scripts/enqueue.lua:5-31 | in every reachable queue the two structures are a bijection, one entry per user, scores distinct and at most the last issued |
| QueueRuns.StaysInPlace | internal/redisx/scripts/enqueue.lua:5-14 | no script moves a user who is queued before and after it |
| QueueRuns.KeepsPlace | internal/redisx/scripts/enqueue.lua:5-14 | a user queued throughout a run keeps one score, so order is kept however often anyone reconnects |
| QueueRuns.NewcomersGoLast | internal/redisx/scripts/enqueue.lua:17-30 | a newcomer goes behind everyone queued or ever popped |
| QueueRuns.RequeueRestores | internal/redisx/scripts/requeue.lua:3-25 | a requeue gives a user the old place back unless queued anew or absent |
| QueueRuns.RequeueTwice | internal/redisx/scripts/requeue.lua:3-25 | repeating a requeue changes nothing |
| RedisScripts.QueueStore.Enqueue | internal/redisx/scripts/enqueue.lua:5-31 | updates the three keys in place as the enqueue function says |
| RedisScripts.QueueStore.Dequeue | internal/redisx/scripts/dequeue.lua:3-10 | updates both structures in place as the dequeue function says |
| RedisScripts.QueueStore.PopPair | internal/redisx/scripts/pop_pair.lua:17-57 | the loop over the window and the loop over the selection do what the declarative pop says |
| RedisScripts.QueueStore.Requeue | internal/redisx/scripts/requeue.lua:3-25 | the loop over the triples does what the requeue function says, counter included |
| Matchmaker.NobodyForgotten | internal/match/service.go:61-188 | over any run with any failing calls and any interference, a popped entry stays in the service's hands until one step takes it out, and after that step the player is in the created match, has no row or an active match, or is back in the queue in place unless the connection is gone; the only other ways out are the pop's own lost reply and a crash; at most one pair is ever pending |
| LostPlayers.LostExactly | internal/match/service.go:61-188 | with lost meaning popped and connected, but in no queue, no active match and nobody's hands: exactly when each step of the service or its surroundings loses a player; restoring, creating and returning lose nobody however they fail, a pop only by its lost reply or by clearing a dead newer connection, a crash only who is in hand and neither queued nor matched |
| LostPlayers.LostInRun | internal/match/service.go:61-188 | over any run a player ends up lost if and only if some step lost the player and nothing found them since |
| LostPlayers.RequeuedSurvivesCrash | internal/match/service.go:156-174 | a requeue that took effect without its reply protects the players from the crash that forgets them |
| LostPlayers.LostReply | internal/redisx/queue.go:105-117 | an example: a pop whose reply is lost leaves two connected players in no queue, no match and nobody's hands |
| Matchmaker.CreatePlaces | internal/match/service.go:77-154 | after create both are in one active match, or those dropped are missing or already active and those kept are neither, or both go on |
| Matchmaker.ReturnedMeaning | internal/match/service.go:156-188 | a requeued user is back in the queue, at the old place unless queued anew, unless presence was lost |
| MatchService.Service.Step | internal/match/service.go:61-128 | queue, tables, pending list and delay after one step are exactly those of the model's restore, pop, create and requeue in order, each failing as it does |
| MatchService.DelayMeaning | internal/match/service.go:61-128 | a failing restore or pop is followed by the retry interval, an empty pop by the poll interval, and a pair by what `PlaceDelay` says |
| MatchService.PlaceDelayMeaning | internal/match/service.go:72-128 | after a pair the service goes on at once exactly if the match was announced, or ineligible players were dropped and nobody is left waiting for a requeue, and otherwise after the retry interval |
| MatchService.Service.Place | internal/match/service.go:72-128 | after a pop: the created match, or the requeue of exactly those who may go back, or their retention, with the delay that follows |
| MatchService.Service.TakePair | internal/redisx/queue.go:105-141 | the queue after the pop script, and the decoded pair exactly if its reply arrived |
| MatchService.SteppedIsRun | internal/match/service.go:61-128 | one step of the object is a run of the matchmaker's own actions without a crash, so the run theorems hold of it |
| MatchService.Service.HandleIneligiblePlayers | internal/match/service.go:130-154 | the loop splits the pair into who is dropped and who goes back |
| MatchService.Service.RestorePending | internal/match/service.go:176-188 | pending is cleared exactly when its requeue succeeded |
| MatchService.Service.RequeueOrRetain | internal/match/service.go:156-174 | entries are requeued, or kept pending exactly when the requeue failed |
| UserLocks.HeldUntilEnd | internal/match/create.go:87-101 | only the end of its holder takes a row lock away |
| UserLocks.LocksExactly | internal/match/create.go:92-101 | locking the next row goes through exactly if the row does not exist or nobody else holds it |
| UserLocks.NoDeadlock | internal/match/create.go:87-101 | at every moment of every run of any number of transactions the wait-for graph over user locks has no cycle |
| UserLocks.SomeoneMoves | internal/match/create.go:87-101 | as long as transactions are open, one of them is not waiting |
| UserLocks.EveryoneFinishes | internal/gateway/matchmaking.go:40-67 | from every reachable state all open transactions can get their rows and end |
| Outputs.PlainMatchesIff | internal/judge/output.go:11-18 | texts without "\r\n" match exactly if they are equal up to one final newline that only one of them has |
| Outputs.MatchesIff | internal/judge/output.go:11-18 | any texts match exactly if they do so after the replacement of "\r\n" |
| Outputs.ReplaceSplits | internal/judge/output.go:12 | every "\r\n" becomes a "\n" where it stands |
| Outputs.LineEndsEquivalent | internal/judge/output.go:11-18 | writing "\r\n" as "\n" anywhere but behind another '\r' changes no answer |
| Outputs.ReplacedBeforehandIff | internal/judge/output.go:11-18 | replacing all of them beforehand changes no answer exactly if the output nowhere has two '\r' and a '\n' in a row |
| Sandbox.FailureMeaning | internal/judge/docker_executor.go:272-304 | each failure of a test exactly in its own case: output limit, timeout, exit code or memory, wrong output; and a pass exactly for exit code 0, no memory kill and matching output |
| Sandbox.OutcomeTells | internal/judge/docker_executor.go:237-306 | what an outcome says of compilation and runs, kind by kind: the tests before it solved, and the failing one as its kind says |
| Sandbox.DockerExecutor.Execute | internal/judge/docker_executor.go:169-307 | returns within TotalTimeout + 2*CleanupTimeout whatever the engine does within its contexts; without an error the workspace was prepared in order, the first failing test decided, a pass means that every test exited with 0 and printed what was expected, and no container or volume is left; every run has its stage's timeout within the whole and its result from the engine; an engine in good order makes no error |
| Sandbox.DockerExecutor.RunTest | internal/judge/docker_executor.go:247-304 | one container per test, made, attached, started, inspected and removed in that order, with the test's own input and timeout |
| Sandbox.DockerExecutor.RunTests | internal/judge/docker_executor.go:246-306 | runs the tests in order, each in its own container on its own input, up to the first that fails |
| Sandbox.DockerExecutor.RunContainer | internal/judge/docker_executor.go:468-560 | attaches before it starts, ends with its context except for one kill, and reports an exit code, output or limit only as the engine gave it in between |
| Sandbox.DockerExecutor.ClassifyProcessError | internal/judge/docker_executor.go:309-320 | an error exactly for broken calls and for timeouts of a cancelled caller |
| Sandbox.AttemptResources.Cleanup | internal/judge/docker_executor.go:671-697 | one bounded pass; without an error nothing the attempt may have created exists |
| Sandbox.AttemptResources.RemoveContainer | internal/judge/docker_executor.go:656-669 | success removes the container and one listing of it; a failure changes no listing; everything that exists stays listed |
| Sandbox.EarlyStopIsExact | internal/judge/docker_executor.go:246-306 | stopping at the first failure gives the outcome that judging all tests would give |
| Sandbox.OutcomeIsAccepted | internal/judge/result.go:21-47 | every outcome maps to a valid terminal result, a pass exactly when all tests passed |
| Sandbox.ExecuteUnderLease | internal/config/config.go:96-115 | under the validated inequality, written out, an execution started within the setup margin ends within the longest attempt of its claim, before the end of the lease; its result is what its outcome is stored as, a pass exactly when the program compiled and all tests passed |
| Tables.Database.Accept | internal/submission/service.go:46-124 | the statements in order do what the admission transaction says |
| Tables.Database.Claim | internal/judge/store.go:93-247 | the statements in order do what the claim transaction says |
| Tables.Database.Complete | internal/judge/store.go:249-350 | row update, then winner and trigger: exactly the completion transaction |
| Tables.Database.LoadMatchPlayers | internal/judge/store.go:385-420 | the loop accepts exactly two distinct players with the submitter among them |
| Tables.Database.ReclaimLeases | internal/reaper/leases.go:21-130 | the statement and the loop over its rows: the reclaim transaction, with every row counted once as reset or poisoned; rows that are not running or whose lease is after now stay as they are |
| Tables.Database.SettleMatch | internal/reaper/matches.go:81-156 | count, score loop and conditional update: the settlement of one match |
| Tables.Database.SettleMatches | internal/reaper/matches.go:23-79 | the loop over the selected page settles it in order and reports each closed match; matches whose deadline is after now stay as they are |
| Tables.Database.CreateMatch | internal/match/create.go:60-161 | lock loop, claims loop, inserts and triggers: the creation transaction |
| Workers.JudgeQueue.Read | internal/redisx/judge_queue.go:82-123 | hands out the oldest undelivered entries in order and makes exactly those pending, for this consumer from now on |
| Workers.ReclaimIdleMeaning | internal/redisx/judge_queue.go:127-165 | an entry is taken over exactly if it has been pending for the idle time and fewer than a batch of such entries come before it |
| Workers.JudgeQueue.ReclaimIdle | internal/redisx/judge_queue.go:127-165 | takes over exactly a page of idle entries |
| Workers.JudgeQueue.Finalize | internal/redisx/judge_queue.go:168-189 | the finalize script |
| Workers.Dispatcher.Dispatch | internal/submission/dispatch.go:45-63 | marks the row only after its job is in the stream |
| Workers.Dispatcher.DispatchPending | internal/submission/dispatch.go:67-123 | on success the whole page is enqueued and marked; on failure no mark survives without its entry |
| Workers.BuildResultEvents | internal/judge/result.go:49-99 | the checks and the loop build exactly the events of the record |
| Services.JudgeService.ProcessJob | internal/judge/service.go:96-160 | the tables change as the two transactions say; entries of malformed jobs, missing submissions and running ones within their lease are finalised, a running one out of lease is left alone with success, failed claims and executions leave the entry and report failure; a result is finalised exactly if every publish call succeeded |
| Services.JobStores | internal/judge/service.go:128-160 | a pending submission with decodable tests ends with the verdict, failure kind and passed tests that its outcome stands for, and the announced record tells them |
| Services.JobAnnouncesStored | internal/judge/service.go:122-124 | a completed one is announced as row and match have it, and nothing is written |
| Services.JobResult | internal/judge/service.go:96-160 | the result a job announces is what the finished row of its own submission stands for; a job dropped or left alone changed no table |
| Services.JobKeeps | internal/judge/service.go:96-160 | a whole job keeps the table invariant, undoes nothing and touches no row but its own submission's |
| Services.JudgeService.PublishAndFinalize | internal/judge/service.go:162-177 | every event is attempted, also after a failure, and reaches its channel unless its own call failed before; the entry is finalised exactly if all succeeded |
| Services.HandledMeaning | internal/reaper/stream.go:49-80 | what becomes of an entry and its row: dropped if malformed or missing, kept if running, otherwise replaced, marked and removed as far as the calls go |
| Services.Reaper.HandleReclaimedJob | internal/reaper/stream.go:49-80 | a replacement goes in before the old entry goes out; a running submission keeps its entry; success exactly if that went through |
| Services.Reaper.SweepStream | internal/reaper/stream.go:15-47 | stream and tables after the page are those of handling its entries in order, failures included; the first failure is reported and every success counted; a submission that had an entry still has one, and the tables change in nothing but enqueue marks of pending rows with an entry |

## Left out

- Sandbox.DockerExecutor.Execute: a container created by the daemon after a failed create call has returned and cleanup has run is not modelled; such an attempt returns an error. Time between engine calls is taken as zero.
- Services.JudgeService.ProcessJob, Services.JobResult: stated for one worker without interference between its claim and its completion, and with database and stream calls that get through; interference, and workers that stop after any call, are what `Protocol` models.
- Services.Reaper.HandleReclaimedJob: likewise stated without interference between its status look-up and its dispatch.
- MatchService.Service.Step: likewise; interference between the calls of a step is in `Matchmaker`. A connection that comes back, a match that ends and an entry taken out by another script also make a player lost in the sense of `LostPlayers`, although the service did nothing; `LostExactly` names them.
- Workers.JudgeQueue.ReclaimIdle: XAUTOCLAIM also limits how many pending entries it scans and skips deleted ones; the model takes the first idle entries.
- RowLocks.RunRefines: the statements of `Accept` and `finalizeMatches` interleave; the transactions of the other services commit in one step each between them.
- Batched transactions (reclaim, settlement, dispatch) appear in `Protocol` as one step per row, which allows more interleavings than the batch; `Tables`, `Workers` and `RowLocks` have the batches.
- The advisory lock is keyed by the pair itself; two pairs whose 32-bit hashes collide only wait for each other.
- Score collisions and text order of sorted-set members: the order of equal scores is a fixed stand-in, and no reachable queue has equal scores. Scores are integers; microsecond values stay below 2^53.
- JSON and UUID encoding: a queue member, its presence key and its route are one value with its encoding, tokens are fresh values and event ids an injective function of kind, submission and recipient.
- Decoding of stream fields and of individual stored tests: a job decodes or does not, and a problem has a number of tests and a flag saying they decode; problems do not change.
- Events the reaper publishes for poisoned submissions and settled matches: best effort, with no retry.
- Deleting users, the finished-to-active branch of the claims trigger, and the constraint-violation retry of createMatch, which the user locks make unreachable here.
- The Kubernetes executor, container options and host validation, stale-resource cleanup at start-up.
- HTTP, WebSocket, JWT, registry, match snapshots, logging, configuration loading beyond the two lease inequalities, and everything under infra.
