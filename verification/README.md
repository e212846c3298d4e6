# Verified model of the LLM evaluation service

A task set is run against several model endpoints. Creating an eval run makes one
run item for each (task, endpoint) pair and queues one message for each; a pool of
workers executes the items, grades the answers, opens reviews for humans and rolls
the cost up into the run, while the API cancels runs and replays dead-lettered
items. Leaderboards and run reports aggregate the rows.

The project models that system in Dafny and proves what its documents promise of
it, for every interleaving of workers and API calls.

| file | content |
|---|---|
| `Protocol.dfy` | the run row, item rows, grade and review tables, message bag, workers and pending replays as a transition system; runs and how they compose |
| `Safety.dfy` | the invariant every step keeps; why the unguarded writes are safe |
| `Ledger.dfy` | single flight, conservation of cost and tokens, rounding drift |
| `RunOutcome.dfy`, `Results.dfy`, `Progress.dfy`, `Attempts.dfy` | final states, succeeded items, no stuck run, termination, retry accounting and backoff |
| `Spend.dfy`, `Tokens.dfy` | the spend bound, with single messages and with overlapping replays |
| `Traces.dfy`, `Anomalies.dfy`, `DoubleGrading.dfy`, `Overspending.dfy`, `Tightness.dfy` | concrete runs: in which a promise fails, and in which the spend bound is attained |
| `Exactness.dfy` | the exact conditions under which each promise holds |
| `EvalService.dfy` | the code, transaction by transaction, over fields updated in place, with arbitrary interference between transactions |
| `Grading.dfy`, `TaskGrading.dfy`, `GradedRuns.dfy`, `ReviewQueue.dfy` | the grading pipeline, its tables over whole runs, claiming and resolving reviews |
| `Relations.dfy`, `Leaderboard.dfy`, `RunReport.dfy` | relational joins, the leaderboard and capability queries; the aggregates of a run |
| `Pricing.dfy`, `Deterministic.dfy`, `Arithmetic.dfy`, `Sums.dfy`, `Options.dfy` | costs, exact match, sums and GROUP BY |

`Protocol.Apply` is the specification; the methods of `EvalService.EvalService` are
the code. `EvalService.ExecuteRunItem` and each transaction it performs are shown to
be stretches of a run of the protocol, and the lemmas about runs then hold of them.

## Assumptions

- **One transaction, one step.** Each `session.begin()` block is atomic. A replay
  request is two steps, the read that checks the item and the guarded write with its
  commit and enqueue, and anything may happen between them. Any other API handler is
  one step, its commit and its enqueue included. Marking an item running and the
  provider call that follows are one step that carries the call's outcome. What READ
  COMMITTED lets happen between two statements of one step lies outside the model,
  and so outside every "if and only if" below.
- **Delivery.** A message is delivered once and held until its execution acknowledges
  it. A worker that crashes gives its message back (late acknowledgement,
  `task_reject_on_worker_lost`). `Faults.crashIn` says before which transactions, and
  whether before the acknowledgement, an environment lets workers crash. Single
  flight is proved from this, not assumed.
- **Single messages.** An environment has *single messages* (`Protocol.SingleMessage`)
  when no crash falls between dead-lettering an item and acknowledging its message and
  no two replays of one item overlap. It is *harmless* (`Progress.Harmless`) when in
  addition every crash falls before the first attempt, before a cancel or abort write,
  or before the acknowledgement of an item not given up. The table names either
  condition wherever a lemma requires it. The methods of `EvalService` run in an
  environment with single messages, which `Valid` says.
- **Oracles.** Provider answers, judge outcomes and regex matches are arbitrary.
  Lower-casing is any per-character map that keeps whitespace whitespace and other
  characters non-whitespace.
- **Units.** Prices are exact integers of 1e-8 USD, recorded costs micro-dollars,
  scores thousandths; token counts and totals are unbounded. Numeric(12,6) overflow,
  the 28-digit Decimal context and binary rounding of floats are not modelled:
  settings and delays are reals, and a reviewer's label or a judge's verdict is an
  exact ratio, rounded half-even.

## Where the code and its documents disagree

The model follows the code. Each promise that fails has a run in which it fails and
the condition on the environment under which it holds of every run.

- docs/DESIGN.md:68-70 lets an in-flight item overshoot the spend limit by one
  completion. That is so for a pool of one worker and for no larger pool
  (`Exactness.OneCompletionIffOneWorker`); the code's bound is one completion per
  worker and per replay (`Tokens.SpendIsBounded`), and it is attained
  (`Tightness.BoundIsAttained`). It fails when a crash falls before an abort check or
  after dead-lettering, and when replays overlap and a crash falls after an execution
  has paid, so that its message pays again. Otherwise it holds, overlapping replays
  included (`Exactness.BoundIffPaysOnce`).
- docs/DESIGN.md:35-36 and README.md:134-135 say that replays never double-count. An
  item is counted twice when a worker crashes after dead-lettering it and before its
  message is acknowledged, or when two replay requests overlap, since the second one
  enqueues without looking at its row count (`Anomalies.RaceDoubleCounts`). These are
  the only ways (`Exactness.ConservedIffSingleMessage`).
- app/api/v1/leaderboard.py:10-11 and docs/DESIGN.md:76-78 rely on one grade per
  (item, grader). Under the same faults two executions of one item both find it
  ungraded and both grade it, and the leaderboard counts it twice
  (`DoubleGrading.RaceGradesTwice`, `DoubleGrading.FansOut`). With single messages, and
  only then, the grades stay unique and the query right
  (`Exactness.GradesUniqueIffSingleMessage`, `Exactness.LeaderboardRightIffSingleMessage`).
- A completed run can show a running item again under the same faults, or once an
  aborted run has been replayed (`Exactness.CompletedHonestIff`).
- A cancelled run has a queued item when the cancel commits between the read and the
  write of a replay, and never otherwise (`Exactness.CancelledNeverQueuedIff`).
- app/workers/execute.py:4-5 relies on redelivery after a crash. Redelivery helps when
  the crash falls before the first attempt, before a cancel or abort write, or before
  the acknowledgement. At any other point the item stays running for ever, or all
  items have succeeded and the run stays running (`Anomalies.CrashStrandsRun`,
  `Exactness.NeverStuckIffHarmless`).
- The run-aborted branch comes before the already-succeeded one, and the cancelled
  reply says failed whatever the update matched (app/workers/execute.py:172-184,
  238-241). A succeeded item is failed, or reported failed, when a crash brings its
  message back, and never otherwise (`Exactness.SucceededIsKeptIff`,
  `Exactness.CancelledIsFailedIff`).
- README.md:152-154 opens a review whenever the judge is in the low-confidence band.
  The code also requires a deterministic score (app/graders/pipeline.py:134), so the
  rule fails of exactly the tasks that have a rubric and no deterministic grader, as
  long as some verdict lies in the band (`TaskGrading.InBandReviewedIffConfigured`).
- app/workers/execute.py:92 gives the jitter as a half-open interval; uniform() may
  return its upper end, and the bounds proved here allow it.

## Model
| member | source | states |
|---|---|---|
| Safety.InitialInv | app/api/v1/eval_runs.py:62-95 | A freshly created run satisfies the invariant: one message per queued item, nothing recorded, totals zero. |
| Safety.StepKeepsInv | app/workers/execute.py:137-480 | With single messages every step of every worker and handler keeps the whole invariant: item records, one message or holder per item, one pending replay, phase knowledge, carried queued items, ledger. All other crashes are included. |
| Safety.RunKeepsInv | app/workers/execute.py:137-480 | With single messages the invariant holds after any run from a state that satisfies it. |
| Safety.LocalStep | app/workers/execute.py:415-480 | An unguarded write of one row by the worker holding the item keeps the invariant, given only what that worker knows locally. |
| Safety.ReplayReadKeeps | app/api/v1/dead_letters.py:31-42 | The status check of a replay keeps the invariant when no other request is about to write the item. |
| Safety.ReplayWriteKeeps | app/api/v1/dead_letters.py:43-68 | The write of a replay finds its item still dead-lettered and keeps the invariant, even when an abort or a cancel fell between read and write. |
| Safety.HeldRowIsPrivate | app/workers/execute.py:415-480 | Under the invariant, while a worker holds an item that is no longer queued, no step of anybody else writes its row: why `_mark_running`, `_mark_failed` and `_mark_dead_lettered` need no guard. |
| Ledger.SingleFlight | app/workers/execute.py:186-191 | With single messages, in every reachable state an item has at most one message or unacknowledged execution, exactly one when queued and none when dead-lettered; a worker about to finalise finds its row running and its previous cost and tokens still right. |
| Ledger.TotalsAreConserved | app/workers/execute.py:263-292 | With single messages, after any run the run row's cost and token totals equal the sums over its items, across retries, replays, cancels, aborts and crashes. |
| Ledger.FinaliseKeepsLedgerIff | app/workers/execute.py:263-292 | From any state at all, a finalise that hits its row keeps the totals right if and only if the snapshot of cost and tokens equals what the row now records. |
| Ledger.DriftIsBounded | app/pricing.py:32-38 | With single messages a run's total is within half a micro-dollar per costed item of the exact price of its recorded tokens. |
| RunOutcome.CompletedIsFinal | app/workers/execute.py:377-412 | With single messages, and unless an aborted run is replayed, a completed run keeps its run row unchanged and all its items succeeded or failed, whatever happens later. |
| RunOutcome.CancelledIsFinal | app/api/v1/eval_runs.py:113-153 | With single messages a cancelled run stays cancelled, and its total grows by at most the cost of the completions that were past their cancel check when the cancel committed; it never has a queued item, unless a cancel may commit between the read and the write of a replay. |
| RunOutcome.RunKeepsSwept | app/api/v1/eval_runs.py:125-151 | Without such a cancel, a cancelled run has no queued item and no pending replay in any run, with any crashes and overlaps. |
| RunOutcome.CancelledStep | app/workers/execute.py:172-175 | From any state that satisfies the invariant, in a cancelled run a step moves no more into the total than leaves the spend in flight. |
| Tokens.SpendIsBounded | app/workers/execute.py:339-374 | With W workers, R replays and completions of at most C each, the total never exceeds limit + (W + R) * C in any run in which no crash falls before an abort check or after dead-lettering and, where replays overlap, none falls once an execution has paid. |
| Tokens.OverlapIsBounded | app/api/v1/dead_letters.py:43-68 | The bound where replays overlap at will and totals are not conserved, provided crashes return messages only before their execution has paid. |
| Tokens.StepKeepsWithin | app/workers/execute.py:294-305 | Its inductive heart: messages and unpaid executions of replayed items never outnumber the replays, and a completion uses one of them up. |
| Spend.OvershootIsBounded | app/workers/execute.py:339-374 | The bound with single messages and no crash between rollup and abort check. |
| Tightness.BoundIsAttained | app/workers/execute.py:339-374 | For every pool of W > 0 workers, every R and every limit that is a multiple of the cost C = 2500 of one completion, some crash-free run spends exactly limit + (W + R) * C. For R > 0 its replays reopen an aborted run. |
| Spend.StepKeepsBound | app/workers/execute.py:294-305 | The inductive heart with single messages: an open run's overshoot is covered by workers about to check the limit; once it has closed, all work in flight or waiting is already paid for by the pool and the replays. |
| Progress.NoStuckRun | app/workers/execute.py:377-412 | In a harmless environment, when a run has no message and no busy worker, the eval run is completed, failed or cancelled and no item is queued or running. |
| Progress.CompletedIffNoDeadLetter | app/workers/execute.py:391-412 | In a harmless environment without replays of aborted runs, a quiet run that was neither cancelled nor aborted is completed exactly when no item is dead-lettered. |
| Progress.StepKeepsAlive | app/workers/execute.py:219-232 | In a harmless environment a running run always has an unfinished item or a worker that still owes a completion check, and a running item always has its worker, or its message in a cancelled run. |
| Progress.RunsAreFinite | app/workers/execute.py:199-336 | In any environment and from any state, the length of a run is bounded by a measure of messages, pending replays, phases, reviews and cancels plus a fixed amount per replay request and crash. |
| Progress.RunLengthIsBounded | app/workers/execute.py:199-336 | In any environment a run over n items with r replay requests and crashes takes at most 1 + (max_attempts + 12) * (n + r) steps. |
| Progress.BusyHasStep | app/workers/execute.py:137-336 | A state of the invariant that is not quiet, with a pool that is not empty, always has a worker step left. |
| Progress.MaximalRunTerminates | app/workers/execute.py:377-412 | In a harmless environment a run that can go on only by a new replay, a crash or a cancel has ended its eval run. |
| Attempts.AttemptsAreAccounted | app/workers/execute.py:199-228 | In runs without crashes and without overlapping replays, an item replayed R times has between max_attempts * R and max_attempts * (R + 1) attempts, and exactly the latter when dead-lettered. |
| Attempts.DelayBounds | app/workers/execute.py:91-97 | With jitter a delay lies between the capped exponential and 1.5 times it. |
| Attempts.DelayDoubles | app/workers/execute.py:91-97 | Without jitter the first delay is the base delay, each further one twice the one before, none above the cap; jitter adds at most a half. |
| Attempts.DelayFromBelow | app/workers/execute.py:91-97 | The delay after attempt n is at least base * 2^(n-1) while that is within the cap, and at least the cap from then on. |
| Attempts.SleepFromBelow | app/workers/execute.py:91-97 | The sleeps sum to at least the doubling delays up to the cap and the cap for each one after. |
| Attempts.SleepIsBounded | app/workers/execute.py:91-97 | The sleeps after n failed attempts sum to at most 1.5 times both base * (2^n - 1) and n * max_delay. |
| Attempts.ExecutionSleep | app/workers/execute.py:199-217 | With one sleep fewer than attempts, a whole execution stays within those bounds. |
| Anomalies.LateCrashRaces | app/api/v1/dead_letters.py:31-68 | A crash at either point after dead-lettering, then a replay, leaves two messages for one item. |
| Anomalies.OverlapRaces | app/api/v1/dead_letters.py:31-68 | Two overlapping replays leave two messages for one item, without any crash: the second write matches no row and enqueues all the same. |
| Anomalies.RaceDoubleCounts | app/workers/execute.py:263-292 | From there one item of cost 2500 leaves a total of 5000. |
| Anomalies.RaceRevivesItem | app/workers/execute.py:415-426 | From there a completed run gets a running item. |
| Anomalies.RaceStrandsRun | app/workers/execute.py:177-180 | From there a run goes quiet while running: the abort write comes after the replay that reopened the run, and no completion check follows it. |
| Anomalies.AbortReplayRevivesItem | app/api/v1/dead_letters.py:55-68 | A reachable completed run with an unfinished item, after an aborted run was replayed. |
| Anomalies.CrashStrandsRun | app/workers/execute.py:182-188 | For each of ten crash points, a reachable quiet state with the run running for ever, its only item running too or succeeded. |
| Anomalies.AbortFailsSucceeded | app/workers/execute.py:177-184 | From a succeeded item whose message is back, a failed run makes the run-aborted branch fail it. |
| Anomalies.CancelMissesSucceeded | app/workers/execute.py:172-175 | From such an item, a cancelled run makes a worker report it failed by cancellation. |
| Anomalies.CancelledRunQueues | app/api/v1/dead_letters.py:38-54 | A reachable cancelled run with a queued item: the cancel committed between the read and the write of a replay. |
| Anomalies.CrashHidesOvershoot | app/workers/execute.py:294-305 | One worker, no replay, limit 0: a crash between rollup and abort check, and two completions are spent. |
| Overspending.LateCrashOverspends | app/api/v1/dead_letters.py:55-66 | Three workers, one replay, limit 0: five completions are spent where the bound allows four, after crashes at either point after dead-lettering. |
| Overspending.PaidCrashOverspends | app/api/v1/dead_letters.py:43-68 | Four workers, 13 replays, of which four overlap, limit 0: 18 completions are spent where the bound allows 17, after crashes at any one point between a paid execution's abort check and its acknowledgement. |
| DoubleGrading.RaceGradesTwice | app/graders/pipeline.py:69-79 | From two messages for one item, both executions find it ungraded, and it ends with two equal grades. |
| DoubleGrading.FansOut | app/api/v1/leaderboard.py:45-46 | The query then has two rows for the one succeeded item. |
| Exactness.ConservedIffSingleMessage | app/api/v1/dead_letters.py:31-68 | Totals are conserved in every run if and only if no crash falls between dead-lettering and acknowledging and no two replays of an item overlap. |
| Exactness.SingleFlightIffSingleMessage | app/workers/execute.py:186-191 | Every item always has at most one message or execution if and only if the same holds. |
| Exactness.GradesUniqueIffSingleMessage | app/graders/pipeline.py:69-149 | Every reachable state has at most one grade per (item, grader) if and only if the environment has single messages. |
| Exactness.LeaderboardRightIffSingleMessage | app/api/v1/leaderboard.py:10-12 | Over the tables of every run the query has the succeeded items that pass the filters once each if and only if the environment has single messages. |
| Exactness.CompletedHonestIff | app/api/v1/dead_letters.py:55-66 | Completed runs never have unfinished items if and only if the same holds and aborted runs are not replayed. |
| Exactness.NeverStuckIffHarmless | app/workers/execute.py:182-188 | Runs that go quiet have always ended if and only if replays do not overlap and every crash falls before the first attempt, a cancel write, an abort write or an acknowledgement of an item not given up. |
| Exactness.CancelledNeverQueuedIff | app/api/v1/eval_runs.py:130-151 | Cancelled runs never have queued items if and only if no cancel commits between the read and the write of a replay, whatever else happens. |
| Exactness.SucceededIsKeptIff | app/workers/execute.py:177-184 | In every run only a grading error takes an item out of succeeded if and only if no crash falls between finalising and acknowledging, and items have one message. |
| Exactness.CancelledIsFailedIff | app/workers/execute.py:172-175 | Every cancelled reply is about a failed item if and only if the same holds. |
| Exactness.BoundIffPaysOnce | app/workers/execute.py:294-305 | Over all environments, limit + (W + R) * C bounds every run if and only if the condition of `Tokens.SpendIsBounded` holds. |
| Results.ResultsAreKept | app/workers/execute.py:172-184 | With single messages and no crash between finalising and acknowledging, no step but a grading error fails a succeeded item, and a worker that cancels an item fails it. |
| Exactness.OneCompletionIffOneWorker | docs/DESIGN.md:67-70 | The documented overshoot of one completion holds of every run without crashes and replays if and only if the pool has at most one worker. |
| EvalService.Dedupe | app/api/v1/eval_runs.py:47 | The endpoint ids, each once. |
| EvalService.DedupeKeepsOrder | app/api/v1/eval_runs.py:47 | They stay in the order in which they first occur. |
| EvalService.FanOutIsCrossProduct | app/api/v1/eval_runs.py:82-86 | Item t * E + e of the fan-out pairs task t with endpoint e and its model, queued, untried and with nothing recorded. |
| EvalService.CreateEvalRun | app/api/v1/eval_runs.py:36-95 | Rejects exactly an unknown task set, or exactly the unknown endpoint ids, which it lists; otherwise leaves an initial state of the protocol over the cross product. |
| EvalService.EvalService.constructor | app/api/v1/eval_runs.py:62-95 | The rows and one message per item of a new run, completed at once when there is nothing to run. |
| EvalService.EvalService.Cancel | app/api/v1/eval_runs.py:114-153 | Refuses exactly completed and failed runs, otherwise cancels and sweeps the queued items; repeating it changes nothing. The invariant holds even when a replay is pending. |
| EvalService.EvalService.CheckReplay | app/api/v1/dead_letters.py:26-42 | The read: refuses exactly missing items, items not dead-lettered and cancelled runs, and leaves everything else as it is. |
| EvalService.EvalService.CommitReplay | app/api/v1/dead_letters.py:43-68 | The write: requeues the item if it is still dead-lettered, clearing its error and nothing else, reopens a failed run and enqueues in any case; alone with its item, it finds it dead-lettered. |
| EvalService.EvalService.Replay | app/api/v1/dead_letters.py:21-69 | A whole request, with anything between its read and its write except another replay of the item: an accepted one ends with the item queued and its message sent. |
| EvalService.EvalService.MarkRunningAndCall | app/workers/execute.py:199-217 | One attempt: the row is running with one more attempt, nothing else is written, and the worker goes where the outcome sends it. |
| EvalService.EvalService.CallUntilAnswered | app/workers/execute.py:193-232 | The retry loop ends with an answer in hand, a failed item or a dead-lettered one, within the backoff bounds; a dead-lettering one has slept for every retry. |
| EvalService.EvalService.FinaliseItem | app/workers/execute.py:266-292 | The guarded update always hits its row: it records the answer's latency, tokens and price, and the run grows by the difference to the snapshot; "already finalized" does not happen. |
| EvalService.FinaliseWins | app/workers/execute.py:267-284 | Under the invariant the finalising guard matches, and the row it leaves carries the cost of its tokens. |
| EvalService.EvalService.AbortOverBudget | app/workers/execute.py:339-374 | Aborts exactly a running run over its limit, failing its queued items and leaving every other row and the totals alone. |
| EvalService.EvalService.JudgeAndCommit | app/graders/pipeline.py:81-149 | Grades and at most one review are committed together, each with the columns its grader's answer gives it, or on a judge error nothing is. |
| EvalService.EvalService.MaybeCompleteRun | app/workers/execute.py:377-412 | The two guarded updates make a running run without unfinished items failed when an item is dead-lettered and completed otherwise, and leave any other run alone. |
| EvalService.EvalService.MarkFailed | app/workers/execute.py:429-444 | The held row is failed with its error, and the worker owes a completion check. |
| EvalService.EvalService.MarkDeadLettered | app/workers/execute.py:447-462 | The held row is dead-lettered and given up: a replay may requeue it from now on. |
| EvalService.EvalService.MarkCancelled | app/workers/execute.py:465-480 | The item is failed; one that has succeeded keeps its result, which takes a crash that brought its message back. |
| EvalService.EvalService.ExecuteRunItem | app/workers/execute.py:137-336 | A whole execution, from delivery to acknowledgement and with any interference between its transactions, is a stretch of a run of the protocol. Each of the nine replies tells the truth about the item at the end, except that exhausted retries speak of a state on the way; it sleeps within the backoff bounds. |
| EvalService.EvalService.DeadLetterAndComplete | app/workers/execute.py:225-232 | The item is dead-lettered in a state on the way, and the run goes on from there through the completion check and the acknowledgement. |
| EvalService.EvalService.Dispatch | app/workers/execute.py:172-188 | The four branches the snapshot alone decides end the execution with a true reply; otherwise the first attempt is next. |
| Grading.Thousandths | app/graders/pipeline.py:107 | A verdict in [0, 1] is quantized to a nearest thousandth in [0, 1], half to even. |
| Grading.Pipeline.GradeItem | app/graders/pipeline.py:57-149 | A graded item gets its rows back; a judge error writes nothing; otherwise one row for each grader that answered: the verdict's half-even thousandth, passed from one half on, null when it could not be parsed, and 1 or 0 for the deterministic grader; and a review with its reason when the rule asks for one. |
| Grading.CallIsRecorded | app/graders/pipeline.py:69-149 | The same of the specification of a call, which the lemmas about runs of calls use. |
| Grading.ReviewReasons | app/graders/pipeline.py:152-169 | The reason is disagreement if and only if the scores are further apart than the threshold, and low confidence if and only if they are not and the judge sits in the band. |
| Grading.GradingStaysUnique | app/graders/pipeline.py:69-149 | Any sequence of calls, repeats, parse failures and errors included, keeps one grade per (item, grader), one review per item, and reviews only where both graders scored. |
| Grading.FirstResultIsFinal | app/graders/pipeline.py:69-79 | A call that returned rows is repeated unchanged by any later call on that item, and that later call changes nothing. |
| Grading.ReviewRuleIsComplete | app/graders/pipeline.py:152-169 | Every pair of scores with differing verdicts or an uncertain judge opens a review if and only if the threshold is below one half or the band covers every tolerated disagreement. |
| Grading.DefaultsMissNothing | app/config.py:28-30 | The shipped settings let no pair of scores that needs a human go without a review. |
| TaskGrading.InBandReview | app/graders/pipeline.py:133-146 | A verdict in the band leaves a review if and only if there was one or the deterministic grader ran. |
| TaskGrading.InBandReviewedIffConfigured | app/graders/pipeline.py:94-146 | Every in-band verdict on an ungraded item leaves a review if and only if the task configures a deterministic grader, has no rubric, or no verdict is in the band. |
| TaskGrading.HalfGoesUnseen | app/graders/pipeline.py:133-146 | A verdict of one half under the shipped settings, on a task with a rubric only, is graded and opens no review. |
| Grading.AuthoritativeIsBetween | app/graders/pipeline.py:172-183 | Without a label the authoritative score lies between the lowest and the highest recorded score. |
| Grading.AuthoritativeIsMean | app/graders/pipeline.py:172-183 | The label wins; without one the score is the half-even thousandth of the mean of the scores there are, and null if and only if there is none. |
| GradedRuns.GradesStayUnique | app/graders/pipeline.py:69-149 | With single messages, in every reachable state the grade and review tables keep their uniqueness, grades exist only for items with a recorded result, and a worker coming to grade an item finds it ungraded. |
| GradedRuns.RecordedStays | app/workers/execute.py:268-281 | From a state of the invariant no step takes back the cost, tokens and latency an item has recorded. |
| ReviewQueue.OneClaimOneResolve | app/api/v1/review_queue.py:117-179 | Under any interleaving of claimers and resolvers a review that was asked for is claimed exactly once, resolved at most once and only after its claim, with a label in [0, 1] and timestamps in order. |
| ReviewQueue.FirstClaimFirstResolution | app/api/v1/review_queue.py:117-179 | Under any interleaving the first claim sets claimed_at, the first resolution after it sets the label, to its verdict's nearest thousandth, and resolved_at, and no other request leaves a trace in the row. |
| ReviewQueue.ResolvedIsFinal | app/api/v1/review_queue.py:147-179 | Once resolved, no request changes the row. |
| ReviewQueue.ReviewTable.ClaimReviewItem | app/api/v1/review_queue.py:118-144 | 404 exactly for a missing review, success exactly for an open one: it is then claimed now, with its other columns and all other rows as they were; otherwise nothing changes. |
| ReviewQueue.ReviewTable.ResolveReviewItem | app/api/v1/review_queue.py:148-179 | 404 exactly for a missing review, success exactly for a claimed one: it is then resolved now with the verdict's half-even thousandth as its label, its other columns and all other rows as they were; otherwise nothing changes. |
| ReviewQueue.ReviewTable.CountByStatus | app/api/v1/review_queue.py:94-99 | Writing the grouped rows over zeros gives, for every status, the number of reviews that have it. |
| ReviewQueue.ReviewTable.MeanTimeToResolve | app/api/v1/review_queue.py:101-108 | The mean exists exactly when a review has both timestamps, times their number it is their summed time, and it is not negative when no claim is later than its resolution. |
| ReviewQueue.MeanIsOfTimestamps | app/api/v1/review_queue.py:101-108 | That mean, times the number of reviews with both timestamps, is a thousand times the summed seconds from claimed_at to resolved_at. |
| ReviewQueue.ReviewTable.ReviewQueueStats | app/api/v1/review_queue.py:91-114 | Each of the three counts is the number of reviews in that status, they add up to all reviews, and the mean beside them is right. |
| ReviewQueue.GroupGrades | app/api/v1/review_queue.py:55-56 | Each item gets exactly its grades, in their order. |
| Relations.LeftJoinKeepsRows | app/api/v1/leaderboard.py:41-46 | A LEFT JOIN in which no row has two matches has exactly one row per left row, in order, carrying the match or null. |
| Relations.JoinKeepsRows | app/api/v1/leaderboard.py:39 | A JOIN along a total foreign key neither drops nor repeats rows. |
| Leaderboard.JoinIsPerItemScore | app/api/v1/leaderboard.py:30-49 | Over tables with unique tasks, grades and reviews, the four-way join equals, row by row, the succeeded items that pass the filters, each once, with its per-item score. |
| Leaderboard.EffectiveRowsAre | app/api/v1/leaderboard.py:30-49 | The query in the columns' terms: exactly the succeeded items of tasks in the task set and of the capability asked for, an empty one asking for nothing, with every column and the score of the documented precedence. |
| Leaderboard.ScorePrecedence | app/api/v1/leaderboard.py:5-12 | A resolved label decides the score, else the judge's, else the deterministic grader's; it is at most 1. |
| Leaderboard.LeaderboardOfRun | app/api/v1/leaderboard.py:30-49 | With single messages, over the tables any run leaves, the query equals the per-item rows, and each row has the latency and cost the aggregates need. |
| Leaderboard.LeaderboardPartitions | app/api/v1/leaderboard.py:51-71 | The rows' counts and costs add up to those of the scored items, and no endpoint appears twice. |
| Leaderboard.LeaderboardSumsAgree | app/api/v1/leaderboard.py:58-59 | Each row rounds its exact sums of scores and of scores of at least one half over its count, and over the rows those add up to the sums over all scored items. |
| Leaderboard.RowIffScored | app/api/v1/leaderboard.py:51-71 | An endpoint has a row if and only if one of its items is scored. |
| Leaderboard.RowIsOfScores | app/api/v1/leaderboard.py:58-60 | A row counts the scored items of its endpoint; its mean score is the sum of their scores over that count and its pass rate the share of those scoring at least one half, each rounded half up to a thousandth. |
| Leaderboard.RowIsOfCosts | app/api/v1/leaderboard.py:64-65 | The total cost is the sum of their costs, and the cost per thousand a thousand times that over the count, rounded. |
| Leaderboard.RowIsOfLatencies | app/api/v1/leaderboard.py:61 | Where every row has a latency, as the rows of a run do (`Leaderboard.LeaderboardOfRun`), the mean latency is the sum of their latencies over the count, rounded to a tenth. |
| Leaderboard.RowIsOfPercentile | app/api/v1/leaderboard.py:62-63 | Likewise the 95th percentile is the interpolation at 0.95 (n - 1) in their ordered latencies, rounded to a tenth: not below any value up to there and not above any from there on. |
| Leaderboard.CapabilitiesRefineRow | app/api/v1/leaderboard.py:92-106 | The capability rows of an endpoint refine its unfiltered leaderboard row: distinct capabilities, counts that add up to the row's, and the row's mean score and pass rate between the lowest and the highest of theirs, rounding included. |
| Leaderboard.CapabilitySumsAgree | app/api/v1/leaderboard.py:92-106 | The leaderboard row rounds the exact sums of scores and of scores of at least one half over the endpoint's capabilities. |
| Leaderboard.CapabilityIsOfScores | app/api/v1/leaderboard.py:92-106 | A capability row counts the endpoint's scored items of that capability, with their mean score and pass rate as rounded. |
| Leaderboard.CapabilitiesIffRow | app/api/v1/leaderboard.py:92-106 | An endpoint has capability rows exactly when it has a leaderboard row. |
| Leaderboard.AggregatesAreBounded | app/api/v1/leaderboard.py:58-65 | Mean score, mean latency, cost per thousand and the 95th percentile, each as rounded, stay between the extremes of the endpoint's scored items, and the pass rate in [0, 1]. |
| Leaderboard.PercentileIsBetween | app/api/v1/leaderboard.py:62-63 | The interpolated percentile of ordered values lies between their bounds. |
| RunReport.CountsByModel | app/api/v1/eval_runs.py:225-227 | The nested dictionary answers the right count for every endpoint and status, zero for absent ones. |
| RunReport.ReadEvalRun | app/api/v1/eval_runs.py:195-252 | One aggregate per distinct endpoint of the items and no other, whose five counts are the numbers of its items in each status. |
| RunReport.MeanIsOfLatencies | app/api/v1/eval_runs.py:203-247 | The mean latency is null if and only if no item of the endpoint has a latency; times the number that have one it is the sum of their latencies. |
| RunReport.CostIsOfItems | app/api/v1/eval_runs.py:203-248 | The total cost is the sum of the costs of the endpoint's items. |
| RunReport.ReportIsComplete | app/api/v1/eval_runs.py:195-252 | A report of any rows counts each item once and each cost once. |
| RunReport.ReportAgreesWithLedger | app/api/v1/eval_runs.py:195-264 | With single messages, for every state a run reaches, the report's counts sum to the number of items and its costs to the run row's total. |
| Pricing.RoundHalfEven | app/pricing.py:38 | The nearest multiple, the even one on a tie. |
| Pricing.RoundingIsMonotone | app/pricing.py:38 | Half-even rounding keeps order and is unique. |
| Pricing.ComputeCost | app/pricing.py:32-38 | The recorded cost is within half a micro-dollar of the exact price; `Pricing.PriceList` and `Pricing.BillsFollowTheList` say what that price is. |
| Pricing.PriceList | app/pricing.py:12-29 | What a million input and a million output tokens of each listed model cost; any other model is free. |
| Pricing.BillsFollowTheList | app/pricing.py:32-38 | Any cost is the half-even rounding of its share of those two bills, and exact for whole millions of tokens. |
| Pricing.ComputeCostIsMonotone | app/pricing.py:32-38 | More tokens of either kind never cost less. |
| Deterministic.SplitUndoesSpacing | app/graders/deterministic.py:26-27 | Splitting returns the words, whatever whitespace surrounds and separates them. |
| Deterministic.SplitJoin | app/graders/deterministic.py:26-27 | Splitting a single-space join of words returns the words. |
| Deterministic.NormalizeComparesWords | app/graders/deterministic.py:26-27 | Normalisation is idempotent, and two texts normalise equal exactly when their words are equal. |
| Deterministic.DefaultMatchComparesWords | app/graders/deterministic.py:30-45 | With both normalisations an answer passes exactly when its words equal the expected ones up to case, in whichever order the two are applied. |
| Deterministic.MatchComparesByConfig | app/graders/deterministic.py:30-45 | What each of the four configurations compares: the texts, the texts up to case, their words, or their words up to case. |
| Deterministic.GradersRun | app/graders/deterministic.py:66-78 | The regex grader passes if and only if the engine matches the configured pattern, else the expected output; an exact match needs an expected output; a task for the judge alone runs neither. |
| Deterministic.SpacingIsIrrelevant | app/graders/deterministic.py:30-45 | Any two spacings of the same words grade alike against any expectation. |

## Left out

- Provider HTTP clients, the fake provider, judge prompts and parsing, and the regex engine: opaque; their outcomes are oracles.
- Celery, Redis artifacts and their expiry, metrics, logging, sessions and engine set-up: only the message bag and the order of database transactions are kept.
- Exceptions the code does not catch (a lost database connection, a failed artifact write): a worker stops only by a crash.
- Authentication, roles, health endpoints, and the endpoints for task sets, models and keys: no state the protocol reads.
- `started_at`, `completed_at`, `updated_at`, `artifact_key`, rationales and notes: written and never read by the protocol; error texts are kept as a kind.
- ORDER BY clauses, the final sort by name, display names and float conversion of the replies: they add no row and change no sum.
- `_HISTORY_SQL`: the same body under another GROUP BY; `Sums.GroupsPartition` is the general statement.
- The finite precision of AVG before ROUND.
- `list_review_queue` beyond its grouping of grades, and the listing of dead letters: filters and a limit over one table.
- The row-not-found error of `execute_run_item`: under the invariant every message names a row.
- EvalService.EvalService.Cancel: its status check, its update and its sweep are one step, though READ COMMITTED would let a replay commit between them.
- EvalService.EvalService.MaybeCompleteRun: its count and its two updates are one step, for the same reason.
- EvalService.EvalService.Replay: two replays of one item that overlap are not run by this method; `Anomalies.OverlapRaces` and the theorems of `Exactness` say what they do.
- Leaderboard.LeaderboardOfRun: the tables of one run; `Leaderboard.JoinIsPerItemScore` covers any tables with unique grades and reviews, several runs included.
- Exactness.OneCompletionIffOneWorker: crashes and replays are excluded from its runs, as the documented sentence does not speak of them; `Exactness.BoundIffPaysOnce` includes them.
