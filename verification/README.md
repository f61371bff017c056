# Verification of the Clawix engine

Clawix runs agents and their sub-agents. This project models the five parts of its engine that keep
state and make promises over whole runs, and proves those promises in Dafny 4.11:

1. **Sub-agent scheduler** — `Scheduler`, `SchedulerSlots`, `SchedulerFairness`, `SchedulerTasks`,
   `SchedulerOutcomes`: the machine and its theorems; `TaskExecutor`: the service object with its maps,
   counters and loops, each method proved to take exactly one step of the machine.
2. **Result delivery** — `Delivery`: publishers, deliverers and the sweep over the two Redis lists and the
   wave counter, one step per Redis command, with crashes and failed commands anywhere; `DeliveryWaves`:
   what became of a wave, told from the events alone; `DeliverySafety`: no result is lost; `DeliverySolo`:
   what holds when deliverers take turns; `SessionDelivery`: the code itself, issuing the commands the
   machine awaits.
3. **Reasoning loop** — `Transcript`, `Compressor`, `Recovery`, `Budget`, `BudgetTracker`,
   `StableStringify`, `CanonicalArguments`, `ToolLoopGuard`; `ReasoningLog`: what a run exchanged with its
   provider; `ReasoningTurn`: what each turn adds to the transcript; and on top of them `ReasoningLoop`.
4. **Tool approval** — `ApprovalTypes`, `ApprovalMemory`, `Approval` (the machine), `ApprovalSafety`,
   `ApprovalDecisions`, `ApprovalOrigins` (theorems over runs), `ToolApprovalService` (the objects), and
   `ToolParameters` for the validation in front of the gate.
5. **Warm container pool** — `ContainerPool`, `ContainerPoolSafety`, `ContainerPoolService`.

`dafny verify dfyconfig.toml` checks everything.

## How the system is modelled

- The code between two awaits is one atomic step; a step of the machine is one such turn. An object whose
  methods update its fields is a class; its `Valid()` says that its fields are where its ghost history of
  turns leads, so every theorem about runs of a machine is a theorem about every history of calls.
- In the delivery protocol a Redis command may work, fail without its effect, or fail after its effect;
  a process may crash between any two commands; any number of deliverers may run at once, which covers a
  lost lock.
- Providers, tools, the summarizer, error classification, number parsing and liveness probes are oracles:
  function parameters or arbitrary choices. Clock values are parameters, one per turn.
- A JavaScript `Map` that is iterated is a sequence in insertion order (rotation, pool); otherwise a map.
- JSON strings are sequences of UTF-16 code units; a number in canonical arguments is identified with the
  text that `JSON.stringify` prints for it.
- The loops sharing a budget tracker run between any two turns of the loop in question and take any turns
  they like; a run without a tracker is a run with a private tracker without limits.
- The grace limit is a given number.

## What the proofs found

- `cancelQueued` does not drain, so with two quotas for one user a cancellation can leave a startable task
  waiting while slots are free (`CancelConservesExactly`, `CancelCanStrandATask`).
- A user that waits under its cap can lose its turn while it still has tasks: exactly when
  a cancellation takes its head and the next task is at its own quota (`BoundedBypass`,
  `CancelCanLoseATurn`); never with one quota per user (`BoundedBypassUnderOneQuota`).
- A push that failed after its effect is retried, so a result can be on the queue up to three times
  although the comment at packages/api/src/engine/sub-agent-result.publisher.ts:89-92 says at most once. It
  is there at most once iff at most one push did not fail before its effect (`PublishOutcome`,
  `AtMostOneCopy`); `PublishThrice` puts it there three times.
- The tool-loop guard needs no assumption on tool names: its key is injective even with colons in them
  (`SameCanonical`). Approval memory keys do need colon-free tool names (`SplitInvertsExactly`,
  `ColonNamesCollide`).
- The initial messages are a prefix of the result iff no request was answered after a compression at a
  positive safe boundary, or there are only system messages in them (`PrefixKeptExactly`, `Run`): such a
  compression moves a system message in front. `PrefixCanBeLost` and `RunCramped` give runs that lose them.
- What recovery does is determined by the provider's replies, the classification, the compressor and the
  abort signal (`ConclusionIsUnique`).
- A denial is final: nothing that happens later lets the call through (`DenialIsFinal`).
- Releasing a session twice leaves a timer behind that can cost a container (`ReleaseIsSoundExactly`,
  `DoubleReleaseLosesAContainer`); a forcibly acquired lock makes two releases possible.
- The idle timeout asked for on acquire is in force afterwards iff no old or dead container was recycled, or
  it is the default anyway (`TimeoutIsKeptExactly`); `ForgottenTimeoutShows` keeps a container warm that was
  asked not to be.
- An array can pass as an object when the schema declares properties, because casting enumerates it:
  `ArrayPassesExactly` says which arrays do, `ArrayPasses` is one. And a required field that is not declared
  is stripped after validation (`StripConformsExactly`).
- The strip tests a name against an object with a prototype, so a parameter with an inherited name such as
  toString reaches the tool undeclared and unchecked (`InheritedNameGetsThrough`). The tool receives declared
  parameters only iff none bears such a name (`StrictParameters`); and a required parameter of such a name
  never counts as missing (`InheritedNameIsNeverMissing`).
- The iteration flag of a run can be set although the loop was left for another reason, in its last allowed
  iteration (`LimitFlagExactly`).

## Model

| member | source | states |
|---|---|---|
| SchedulerFairness.PickIsNearestEligible | packages/api/src/engine/task-executor.service.ts:437-452 | The modular scan reaches every rotation position; what it picks is the eligible user nearest to the round-robin index. |
| SchedulerSlots.ExactSlotAccounting | packages/api/src/engine/task-executor.service.ts:420-555 | After any run: global count = started and not finalized tasks = sum of the user counts, within 0..maxConcurrent; pending within maxPending; every user within its last quota; each task publishes at most once and gives its slot back at most once, never before publishing. |
| SchedulerSlots.ClampNeverActs | packages/api/src/engine/task-executor.service.ts:475-480 | In every reachable state a task holding its slot has a positive counter to give back, so the lower clamp at zero never changes a value. |
| SchedulerSlots.ReleaseKeepsInv | packages/api/src/engine/task-executor.service.ts:475-480 | Settling a task and finalizing it keeps the whole slot invariant. |
| SchedulerFairness.DrainConserves | packages/api/src/engine/task-executor.service.ts:420-431 | A drain ends only with all slots taken or no user able to start its head task. |
| SchedulerFairness.WorkConservation | packages/api/src/engine/task-executor.service.ts:229-285 | With one quota per user, in every reachable state all slots are taken or every user with queued tasks is at its cap, and no user is above it. |
| SchedulerFairness.CancelConservesExactly | packages/api/src/engine/task-executor.service.ts:275-285 | A cancellation does not drain: the machine stays work-conserving iff all slots are taken, or the head was not cancelled, or nothing is queued behind it, or the next task is at its own quota. |
| SchedulerFairness.CancelCanStrandATask | packages/api/src/engine/task-executor.service.ts:275-285 | The failing case is reachable: three submissions of one user with two quotas, then a cancellation. |
| SchedulerFairness.StartBypasses | packages/api/src/engine/task-executor.service.ts:437-452 | Each pick of another user strictly lowers the cyclic distance to a waiting eligible user, who stays eligible. |
| SchedulerFairness.EnqueueBypasses | packages/api/src/engine/task-executor.service.ts:259-267 | A newly appended user raises that distance by at most one; a known user does not. |
| SchedulerFairness.BoundedBypass | packages/api/src/engine/task-executor.service.ts:415-452 | Over any run and any quotas, a user that waits under its cap and is not picked stays so after every event iff no cancellation takes its head and leaves no task it could start instead; meanwhile every other user is picked at most once, and the picks are bounded by the distance of the scan plus the new users. |
| SchedulerFairness.BoundedBypassUnderOneQuota | packages/api/src/engine/task-executor.service.ts:415-452 | With one quota per user such a user is under its cap after every event iff it has a queued task: it keeps its turn until it is picked or cancellations, of whichever tasks, empty its queue. The same bounds hold meanwhile. |
| SchedulerFairness.CancelCanLoseATurn | packages/api/src/engine/task-executor.service.ts:275-285 | With two quotas it can lose its turn with a task left: three submissions of one user to one slot, then the cancellation of its head, uncover a task at its own quota. |
| SchedulerTasks.TaskPartition | packages/api/src/engine/task-executor.service.ts:229-285 | Every submission, counted with repetition, is rejected, queued, cancelled, running or finalized. |
| SchedulerTasks.ExactlyOnePlace | packages/api/src/engine/task-executor.service.ts:229-285 | With distinct submissions each submitted task is in exactly one of the five places. |
| SchedulerTasks.StartsInSubmissionOrder | packages/api/src/engine/task-executor.service.ts:437-452 | For each user, started tasks in start order followed by the queued ones are the accepted ones in submission order without the cancelled ones. |
| TaskExecutorService.TaskExecutor.Submit | packages/api/src/engine/task-executor.service.ts:229-268 | Takes exactly the submit step: accepted iff the total and the user's own waiting tasks are below their bounds, rejected otherwise; then whatever can start, starts. |
| TaskExecutorService.TaskExecutor.CancelQueued | packages/api/src/engine/task-executor.service.ts:275-285 | Says whether a task of that id is queued; takes exactly one such task out of its queue, and changes nothing if there is none. |
| TaskExecutorService.TaskExecutor.FindHolder | packages/api/src/engine/task-executor.service.ts:276-283 | The search finds the first queue in rotation order that holds the id. |
| TaskExecutorService.TaskExecutor.NextEligibleItem | packages/api/src/engine/task-executor.service.ts:437-452 | The scan loop takes the head of the picked queue and moves the index behind it, or changes nothing when there is no pick. |
| TaskExecutorService.TaskExecutor.DrainQueues | packages/api/src/engine/task-executor.service.ts:420-431 | The loop reaches exactly the drained state. |
| TaskExecutorService.TaskExecutor.CloseTask | packages/api/src/engine/task-executor.service.ts:475-480 | Writing the latch back, freeing the slot and draining is exactly the finalize step. |
| TaskExecutorService.TaskExecutor.OnRunSettled | packages/api/src/engine/task-executor.service.ts:521-554 | The first exit to settle the task wins: a run that resolved as completed publishes a completion, one that rejected or resolved otherwise a failure; for a settled task nothing is published. |
| TaskExecutorService.TaskExecutor.OnPublishReturned | packages/api/src/engine/task-executor.service.ts:538-545 | The turn after the awaited publish finalizes the task. |
| TaskExecutorService.TaskExecutor.OnWatchdog | packages/api/src/engine/task-executor.service.ts:485-516 | An unsettled task publishes a failure and is finalized; a settled one is left alone. |
| SchedulerOutcomes.OutcomeIsTrue | packages/api/src/engine/task-executor.service.ts:485-555 | Over any run, a task has published exactly one completion iff the first event that settled it was its own run resolving as completed; one failure iff that event was any other end of its run or the watchdog; nothing iff no event settled it. |
| SchedulerOutcomes.AcceptedExactly | packages/api/src/engine/task-executor.service.ts:229-256 | A submission is accepted iff fewer tasks than the global bound wait and fewer of its user than its own quota, or the default one, allows; otherwise it is rejected. It is never dropped. |
| SchedulerOutcomes.UsersWaitWithinCaps | packages/api/src/engine/task-executor.service.ts:229-268 | Over any run, each task of a user waits at a position within the bound that came with it. |
| SchedulerOutcomes.CancelsExactly | packages/api/src/engine/task-executor.service.ts:275-285 | A cancellation takes out one queued task of that id if there is one, wherever it is queued, and changes nothing else. |
| SchedulerOutcomes.CancelledWasAsked | packages/api/src/engine/task-executor.service.ts:275-285 | Over any run, a task was cancelled only by a cancellation of its own id. |
| Delivery.CopiesRem | packages/api/src/cache/redis.service.ts:175-178 | Removing the first occurrence lowers the number of copies of a result by one iff the removed item carried it and was there. |
| DeliveryWaves.HistoryIsTrue | packages/api/src/engine/task-executor.service.ts:704-754 | The waves a run counts as sent, delivered, sessionless or failed are exactly those for which the event happened: the parent found, its run ended well, no session found, or a failure inside the try block. |
| DeliveryWaves.MetIsRecorded | packages/api/src/engine/task-executor.service.ts:704-754 | A result met such an event in some wave iff the recorded waves of that kind carry it. |
| DeliveryWaves.CompletedIsTrue | packages/api/src/engine/task-executor.service.ts:704-746 | The completed waves a run counts are the parent runs that ended well whose wave was removed to the last item. |
| DeliverySafety.ApplyKeepsBalance | packages/api/src/engine/task-executor.service.ts:663-805 | Every single step of any process keeps, for every unsettled result, copies minus removals still owed at least one. |
| DeliverySafety.NoResultLost | packages/api/src/engine/task-executor.service.ts:663-805 | Under any interleaving of publishers, deliverers, sweeps, crashes and failed commands a published result keeps a copy for each removal still owed and one more, until a parent run for a wave carrying it ended well, or a drop rule fired. |
| DeliverySafety.DropsAreEarned | packages/api/src/engine/task-executor.service.ts:787-795 | The attempt-cap drop fires only after five waves carrying the result met a failure; the sessionless drop only after a lookup for such a wave found no session. |
| DeliverySafety.GoneMeansSettled | packages/api/src/engine/task-executor.service.ts:663-805 | A published result with no copy left was in a wave whose parent run ended well, or in five waves that met a failure, or in a wave whose lookup found no session. |
| DeliverySolo.BoundedDispatch | packages/api/src/engine/task-executor.service.ts:787-801 | With deliverers taking turns and no Redis error, the parent is started with a result in at most five waves over all deliveries and sweeps, and between calls a result is never held twice. |
| DeliverySolo.CounterCountsCompletedWaves | packages/api/src/engine/task-executor.service.ts:687-754 | In such runs the session counter equals, between calls, the waves whose parent run ended well and that were removed completely, and never ends above the cap: capped, sessionless and failed waves are net zero. |
| SessionDeliveryService.SessionDelivery.DrainBatch | packages/api/src/engine/task-executor.service.ts:664-671 | The pull loop moves the tail of the queue, at most one wave, to the processing list in pull order; it throws only on a failing answer of Redis. |
| SessionDeliveryService.SessionDelivery.ParseBatch | packages/api/src/engine/task-executor.service.ts:673-683 | What is left is the sound items of the batch in their order, and exactly the unparseable ones have left the processing list; it throws only on a failing answer, and then the first few of them have. |
| SessionDeliveryService.PartsAreAll | packages/api/src/engine/task-executor.service.ts:673-683 | Sound and unparseable items together are the whole batch, with repetition. |
| SessionDeliveryService.SessionDelivery.GiveBack | packages/api/src/engine/task-executor.service.ts:697-700 | A capped batch goes back item by item, pushed before it is removed; it throws only on a failing answer. |
| SessionDeliveryService.SessionDelivery.TryWave | packages/api/src/engine/task-executor.service.ts:704-746 | How a wave ends is what the lookup and the parent run of that wave make of it: delivered only if the parent was found and its run ended well, sessionless only if the lookup found none; otherwise, or when a Redis command failed, it counts as failed, with only some of its first items removed. A delivered or sessionless wave leaves the processing list as a whole; the first keeps its count and is completed, the other gives it back. |
| SessionDeliveryService.SessionDelivery.HandleDeliveryError | packages/api/src/engine/task-executor.service.ts:764-805 | Without a Redis error the item is dropped at the attempt cap and else replaced by its rewritten copy; under the cap, whatever fails, no result loses a copy. |
| SessionDeliveryService.SessionDelivery.OnePass | packages/api/src/engine/task-executor.service.ts:663-755 | A pass that continues has shortened the queue; a capped one has put the sound items of its batch back behind the rest, order kept; only a failing answer makes it throw. |
| SessionDeliveryService.SessionDelivery.DeliverResults | packages/api/src/engine/task-executor.service.ts:658-756 | Terminates when nobody pushes: with an empty queue, at the cap, after a wave that failed for a reason that was the case, or with a failing answer of Redis. What it leaves of the queue is a front part in its order, at the cap with the sound items of the last batch turned behind it. Unless an answer failed, the counter rises by exactly the completed waves. |
| SessionDeliveryService.SessionDelivery.TryDeliverResults | packages/api/src/engine/task-executor.service.ts:588-648 | A live parent run or a held lock changes nothing. Otherwise one delivery, and a second one unless the first threw or left the queue empty; so unless a Redis command failed the queue is empty afterwards, or the cap was reached, or a wave failed; at the cap the queue is turned twice. |
| SessionDeliveryService.SessionDelivery.RequeueProcessing | packages/api/src/engine/task-executor.service.ts:886-892 | Moves a suffix of the processing list in front of the queue, order kept: nothing when a locked session is to be skipped, everything unless a Redis command fails, and then what was moved before. |
| SessionDeliveryService.SessionDelivery.PublishOutcome | packages/api/src/engine/sub-agent-result.publisher.ts:60-147 | Total; at most three pushes of this one result, stopping at the first that reports success; the copies on the queue are the pushes that landed, so at most one iff at most one push did not fail before its effect; enqueued or dead-lettered exactly when it is a child with a parent session and the lookups worked. |
| SessionDeliveryService.AtMostOneCopy | packages/api/src/engine/sub-agent-result.publisher.ts:89-131 | There is at most one copy iff at most one push landed. |
| SessionDeliveryService.PublishThrice | packages/api/src/engine/sub-agent-result.publisher.ts:89-131 | Concrete run: every push lands and reports a failure; three copies are on the queue and the outcome is dead-lettered. |
| SessionDeliveryService.SessionDelivery.NothingLost | packages/api/src/engine/task-executor.service.ts:658-906 | After any history of calls and failures on the object, a published result is in a list, or a parent run for a wave carrying it ended well, or five such waves failed, or a lookup for one found no session. |
| CanonicalArguments.PrintUnique | packages/api/src/engine/tool-loop-guard.ts:19-29 | Unique readability: a printed value followed by a delimiter can be read in one way only. |
| CanonicalArguments.PrintInvariant | packages/api/src/engine/tool-loop-guard.ts:19-29 | Key order does not show in the printed text. |
| CanonicalArguments.CanonicalText | packages/api/src/engine/tool-loop-guard.ts:19-29 | Two argument trees print the same text iff they are equal up to key order. |
| ToolLoopGuardModel.SameCanonical | packages/api/src/engine/tool-loop-guard.ts:31-33 | The guard's key is the same iff tool name and arguments up to key order are; this needs no assumption on tool names. |
| ToolLoopGuardModel.FailureRunOfThree | packages/api/src/engine/tool-loop-guard.ts:43-59 | Three equal failures in a row, counted one by one, are exactly: this call and the two before it failed alike. |
| ToolLoopGuardModel.ToolLoopGuard.Record | packages/api/src/engine/tool-loop-guard.ts:43-59 | Throws on call t exactly when calls t-2, t-1 and t failed with the same tool and the same arguments up to key order. |
| Compressor.FindVerbatimBoundary | packages/api/src/engine/compressor.ts:49-58 | The index from which exactly `keep` user messages follow, or -1 exactly when there are fewer. |
| Compressor.IsBoundarySafe | packages/api/src/engine/compressor.ts:68-89 | Safe iff the kept side does not start with a tool result and no kept result answers an older call by a non-empty id. |
| Compressor.FindSafeBoundary | packages/api/src/engine/compressor.ts:98-116 | A positive result is the greatest safe user-message index with enough user messages after it; otherwise there is none. Terminates. |
| Compressor.Compress | packages/api/src/engine/compressor.ts:160-188 | Unchanged iff no boundary is usable. Otherwise the summarizer decides: if it throws there is no result, else what comes before the last usable boundary, but for the system messages, gives way to one system message that ends with the summary. |
| Compressor.CompressedParts | packages/api/src/engine/compressor.ts:170-187 | System messages keep their order and gain one that carries the summary; the kept part is a verbatim suffix of the non-system messages. |
| Compressor.CompressionKeepsPairing | packages/api/src/engine/compressor.ts:160-188 | A well-paired transcript stays well paired. |
| Compressor.NoKeptResultLosesItsCall | packages/api/src/engine/compressor.ts:68-116 | On any transcript, a kept tool result keeps every call it answers by a non-empty id. |
| Recovery.Dispatch | packages/api/src/engine/recovery-loop.ts:95-193 | Under the global cap a retryable failure is retried while retries are left, after the wait that the configured list has for that retry; else a compressible one is compressed while compressions are left; else it gives up, with the reason that was the case. |
| Recovery.RunWithRecovery | packages/api/src/engine/recovery-loop.ts:61-196 | Success iff the last reply is an answer; cancelled iff the abort signal is set at the last failure or during the wait after it; else given up, with the reason that is the case. Every action was called for by the failing reply before it. At most 1 + min(globalCap, maxRetries + maxCompressions) provider calls; the returned messages are the compressor iterated once per compress action. |
| Recovery.ConclusionIsUnique | packages/api/src/engine/recovery-loop.ts:61-196 | For given replies, classification, compressor and abort signal there is only one outcome, one event trace and one number of calls that meet this: the promise leaves nothing open. |
| Budget.OvershootBound | packages/api/src/engine/reasoning-loop.ts:193-269 | With at most k calls in flight, none above M, the shared total never exceeds graceLimit - 1 + k*M. |
| Budget.OvershootBoundPerLoop | packages/api/src/engine/reasoning-loop.ts:193-269 | The same for k = the number of loops sharing the tracker. |
| Budget.OvershootBoundIsTight | packages/api/src/engine/reasoning-loop.ts:193-269 | For every k and M some run of k loops with calls of at most M reaches the bound exactly. |
| Budget.NoCallAfterLimit | packages/api/src/engine/reasoning-loop.ts:193-203 | Once the grace limit is reached it stays reached and no loop starts another call. |
| Budget.CounterAndGrace | packages/api/src/engine/budget-tracker.ts:34-74 | Over any run of all loops the counter is the initial value plus what the returned calls cost; the grace message is injected exactly once if some check finds the total at the budget and below the grace limit, and never otherwise. |
| Budget.InjectsExactly | packages/api/src/engine/reasoning-loop.ts:261-285 | A turn injects the message iff it is the check after a call, finds the total at the budget and below the grace limit, and no loop injected it before. |
| BudgetTracking.BudgetTracker.Record | packages/api/src/engine/budget-tracker.ts:51-54 | Adds input and output tokens, and is exactly the machine's recording turn. |
| BudgetTracking.BudgetTracker.BeforeCall | packages/api/src/engine/reasoning-loop.ts:196-203 | The call is made iff the loop wants it and the shared total is below the grace limit. |
| BudgetTracking.BudgetTracker.AfterCall | packages/api/src/engine/reasoning-loop.ts:261-285 | Stops iff the total has reached the grace limit; injects iff it has reached the budget, not the limit, and no loop injected before; check, injection and mark are one turn. |
| BudgetTracking.BudgetTracker.Await | packages/api/src/engine/reasoning-loop.ts:225-257 | Whatever other loops do meanwhile: this loop stays where it is, the limit stays reached, the grace mark stays set, nothing is recorded in this loop's name. |
| BudgetTracking.BudgetTracker.Overshoot | packages/api/src/engine/budget-tracker.ts:15-75 | Every reachable tracker obeys the overshoot bound. |
| BudgetTracking.BudgetTracker.Accounted | packages/api/src/engine/budget-tracker.ts:15-75 | Every reachable tracker: used = initial + the cost of the returned calls, and one message was injected iff some check found it due. |
| ReasoningLoop.AccumulatedIsTotal | packages/api/src/engine/reasoning-loop.ts:39-49 | Adding usage up response by response gives the sums; a cache number is present iff its sum is positive. |
| ReasoningLog.CompressionsKeepPairing | packages/api/src/engine/reasoning-loop.ts:225-233 | The compressor iterated any number of times keeps the transcript well paired. |
| ReasoningLoop.AskProvider | packages/api/src/engine/reasoning-loop.ts:225-233 | The outcome is the one, and the only one, that the provider's replies to this request and the abort signal call for, within five calls; the adopted messages are well paired if they were before. |
| ReasoningLog.ExchangeIsUnique | packages/api/src/engine/reasoning-loop.ts:225-233 | There is no second way for a request to be answered, cancelled or refused. |
| ReasoningLog.PrefixKeptExactly | packages/api/src/engine/reasoning-loop.ts:225-233 | The initial transcript is a prefix of the current one iff no request lost messages to a compression at a positive boundary before it was answered, or it holds system messages only. |
| ReasoningLog.PrefixCanBeLost | packages/api/src/engine/reasoning-loop.ts:225-233 | A concrete log of a run: refused for its length, compressed, answered; the initial transcript is no prefix any more. |
| ReasoningLog.LongIsLost | packages/api/src/engine/reasoning-loop.ts:225-233 | With that provider every run that gets a response has lost its initial transcript. |
| ReasoningTurn.NextRequestHoldsTheTurn | packages/api/src/engine/reasoning-loop.ts:301-425 | Notes aside, every request but the first is the adopted transcript of the turn before, the response with its text and all its tool calls, and each call's own output in order. |
| ReasoningTurn.ToldHoldsTurns | packages/api/src/engine/reasoning-loop.ts:287-446 | The same of all requests of a run, and of the messages it ends with; where it concludes, they end with the last response as a plain answer. |
| ReasoningTurn.NoteFollowsFirstRead | packages/api/src/engine/reasoning-loop.ts:395-425 | Over any run, the answer to a call is followed by the note on a skill iff the call is the first clean read of that skill's file. |
| ReasoningTurn.ToldKeepsPairing | packages/api/src/engine/reasoning-loop.ts:287-446 | Appending turns keeps a well-paired transcript well paired. |
| Compressor.CompressionLeads | packages/api/src/engine/compressor.ts:170-187 | A compression at a positive boundary leaves more system messages in front of the first other message than before. |
| Compressor.PrefixLostExactly | packages/api/src/engine/compressor.ts:160-188 | A transcript still starts with an initial one iff it was not really compressed since, or the initial one holds system messages only. |
| ReasoningLoop.LoopRun.Ask | packages/api/src/engine/reasoning-loop.ts:205-246 | One request with recovery: the provider's answer to it is booked in total usage and tracker; or a clean exit after an abort; or the provider's last error, after recovery gave up. |
| ReasoningLoop.LoopRun.CheckBudget | packages/api/src/engine/reasoning-loop.ts:261-285 | Stops past the limit; injects the message iff the total is at the budget, not past the limit and no loop injected before; the next request is the grace turn exactly then. |
| ReasoningLoop.LoopRun.RunTools | packages/api/src/engine/reasoning-loop.ts:314-426 | When it ends well: every call of the message was executed and told to the guard in order, and the transcript gained, call by call, the call's own output and the note on a skill read for the first time, and nothing else. When it throws: the guard was told of the calls made so far, and throws exactly at a third equal failure. |
| ReasoningLoop.LoopRun.Answer | packages/api/src/engine/reasoning-loop.ts:395-425 | The answer, and after it the skill note exactly when a listed skill file was read without error for the first time. |
| ReasoningLoop.LoopRun.Decide | packages/api/src/engine/reasoning-loop.ts:261-427 | What a response leads to: budget stop, error stop or final answer, each ending with the response as a plain answer; or tools, and then the transcript holds the response, every call and every result. |
| ReasoningLoop.LoopRun.Loop | packages/api/src/engine/reasoning-loop.ts:184-427 | Ends in one of the described exits or an exception, with the tracker left. |
| ReasoningLoop.LoopRun.OneGraceTurn | packages/api/src/engine/reasoning-loop.ts:211-221 | At most one request of a run is the restricted grace turn, and it is not the first. |
| ReasoningLoop.LoopRun.FlagsExplainTheEnd | packages/api/src/engine/reasoning-loop.ts:433-451 | No flag is set iff the run was not aborted and ended with a final answer, with an error response that was not both the last allowed one and asking for tools, or without an iteration to make. The timeout flag is set iff the run was aborted, the budget flag iff it was stopped past the limit. The content is the last response's, and a run that ends with a plain answer has it as its last message. |
| ReasoningLoop.LoopRun.LimitFlagExactly | packages/api/src/engine/reasoning-loop.ts:433-434 | The iteration flag is set iff the last allowed iteration was made and the run was left by the limit, or during that iteration by an abort after an earlier response, or by a budget or error stop on a response that asks for tools. |
| ReasoningLoop.LoopRun.NoThreeAlike | packages/api/src/engine/reasoning-loop.ts:386-393 | Among all the tool calls made by a run that returned a result, turn by turn, no three in a row failed alike. |
| ReasoningLoop.LoopRun.LoopedExactly | packages/api/src/engine/reasoning-loop.ts:386-393 | A run that threw ended with the tool-loop exception iff the last three of the calls it made failed alike. |
| ReasoningLoop.Run | packages/api/src/engine/reasoning-loop.ts:80-452 | On every exit path: the first request holds the initial messages, every later one the turn before it, and the result the last turn, with nothing missing; well paired if the initial messages were; initial messages a prefix iff no compression dropped messages or they are all system messages; every response is the one recovery got for its request; iterations within the limit; total usage the exact sum, and exactly what the tracker was told. |
| ReasoningLoop.RunCramped | packages/api/src/engine/reasoning-loop.ts:80-452 | Running the loop itself against the provider of that log loses the initial transcript as soon as there is a response. |
| ApprovalTypes.DowngradeIsStrongestOffered | packages/api/src/approvals/approval.types.ts:36-55 | A downgrade keeps direction, never gains strength, is flagged iff it changed, and is the strongest offered choice the user's choice covers. |
| ApprovalTypes.OffersAreBounded | packages/api/src/approvals/approval.types.ts:19-33 | After a downgrade to the offer, an extractor failure leaves only `once`, a call scope never leaves `always`, and every other choice is kept. |
| ApprovalTypes.SplitInvertsExactly | packages/api/src/approvals/tool-approval.service.ts:475-478 | Revocation recovers tool and resource from the stored key iff the tool name has no colon. |
| ApprovalTypes.KeysDiffer | packages/api/src/approvals/approval.types.ts:14-16 | Memory keys of colon-free tools differ iff tool or resource differ. |
| ApprovalTypes.ColonNamesCollide | packages/api/src/approvals/approval.types.ts:14-16 | With a colon in a tool name two tools share a key, and revoking one addresses the other. |
| ApprovalMemory.LookupFollowsPrecedence | packages/api/src/approvals/tool-approval.service.ts:171-228 | The lookup is the verdict of the most specific level that has one, deny over allow within a level; a prompt iff no level has a verdict. |
| ApprovalMemory.LookupHitIsStored | packages/api/src/approvals/tool-approval.service.ts:198-224 | The hit names a key of this tool and a store that holds that decision, live. |
| ApprovalMemory.LookupSlides | packages/api/src/approvals/tool-approval.service.ts:158-169 | A lookup slides the live entries of the levels it visits, drops the expired ones, and touches no other entry. |
| ApprovalMemory.SessionDecisions.Read | packages/api/src/approvals/tool-approval.service.ts:158-169 | Answers iff the session has an entry no older than a day, and then renews it; an older one is dropped. |
| ApprovalMemory.SessionDecisions.Lookup | packages/api/src/approvals/tool-approval.service.ts:176-228 | The loop over the levels answers and leaves behind exactly what the scan says. |
| ApprovalSafety.ApplyKeepsInv | packages/api/src/approvals/tool-approval.service.ts:230-470 | Every step keeps: the open rendezvous are exactly the waiting calls, under their own row, user and offer; choices acted on were offered; only primary runs with a session ask. |
| ApprovalSafety.RanOnlyWithConsent | packages/api/src/engine/tool-registry.ts:320-407 | Over any run, a gated tool that ran was let through by an allowing memory verdict, or its own user chose to allow on that very rendezvous and that arrived before timeout and abort. |
| ApprovalSafety.DenialIsFinal | packages/api/src/approvals/tool-approval.service.ts:230-452 | Once a call is denied or on its way there, by memory, a human, a timeout, an abort or a failed delivery, no later step of anyone clears it, and its tool never runs. |
| ApprovalSafety.NoHumanNoAsking | packages/api/src/approvals/tool-approval.service.ts:270-286 | Sub-agents and runs without a session are let through by memory only. |
| ApprovalSafety.UnwiredNeverRuns | packages/api/src/engine/tool-registry.ts:350-353 | Over any run, a call needing approval on a registry without context stays blocked. |
| ApprovalSafety.ExemptionIsExplicit | packages/api/src/engine/tool-registry.ts:326-348 | Over any run, a call that skips the gate was opened for a tool that needs no approval or with an explicit false of the tool's own predicate; a throwing predicate does not do. |
| ApprovalSafety.StandingWritesAreEarned | packages/api/src/approvals/tool-approval.service.ts:423-432 | A standing decision is written only for the call's own user, tool and resource, as an offered `always`; never after an extractor failure or for a call scope. |
| ApprovalDecisions.SessionWritesAreEarned | packages/api/src/approvals/tool-approval.service.ts:414-422 | Session memory gains or changes a decision only by an offered `session` choice of that session and key; never after an extractor failure. |
| ApprovalDecisions.ClosedForGood | packages/api/src/db/approval-request.repository.ts:63-91 | A request row leaves PENDING at most once and never changes afterwards. |
| ApprovalDecisions.StandingDecisionAnswers | packages/api/src/approvals/tool-approval.service.ts:193-225 | A standing decision, on the call's resource or on the tool in general, answers every later call it covers until a step stores or revokes it: in its own direction, unless the session has a live denial at that level or the call's own resource has a verdict, which then counts. |
| ApprovalDecisions.SessionDecisionAnswers | packages/api/src/approvals/tool-approval.service.ts:193-225 | The same for a session decision of an unexpired entry: it answers unless a standing denial was fetched for that level or the call's own resource has a verdict, until a step writes, revokes or clears it. |
| ApprovalOrigins.InputStems | packages/api/src/engine/tool-registry.ts:355-395 | Over any run, what a gated call is asked about is what its tool declared when it was first opened: user, session, tool, scope (call scope if none is declared), resource, extractor failure. |
| ApprovalOrigins.StandingStems | packages/api/src/approvals/tool-approval.service.ts:404-432 | Over any run, a gained or changed standing decision was asked for as exactly that `always` choice by the user it belongs to, on the prompt of a call whose tool declares the run or the resource scope; a tool with the call scope or none, or a failed extractor, never leaves one. |
| ApprovalOrigins.SessionStems | packages/api/src/approvals/tool-approval.service.ts:404-422 | Over any run, a gained or changed session decision was chosen as a session choice by the user of a call of that session, for that call's own tool and resource, after no extractor failure. |
| ApprovalOrigins.RowTellsTheAnswer | packages/api/src/approvals/tool-approval.service.ts:315-453 | Over any run, status, store and key of a closed row follow from an answer that reached its own call (approved or denied as chosen, expired, cancelled), unless the call was denied unasked or a restart expired the row. |
| ApprovalOrigins.ApprovedWasAllowed | packages/api/src/approvals/tool-approval.service.ts:434-452 | Over any run, a row says approved only if the user of its own call allowed it on that prompt, before any timeout or abort. |
| ApprovalOrigins.AnswerIsCarriedOut | packages/api/src/approvals/tool-approval.service.ts:375-453 | Once answered, and if nothing fails, the call is allowed iff the choice allows, its row is closed accordingly, and the decision is remembered where the choice says and nowhere else. |
| ApprovalOrigins.LookDecides | packages/api/src/approvals/tool-approval.service.ts:230-286 | Allowed iff the precedence rule allows, denied iff it denies or nobody can be asked, asked otherwise. |
| ToolApprovalService.ApprovalRequestRepository.TransitionStatus | packages/api/src/db/approval-request.repository.ts:63-79 | Moves exactly the named row, and only from the named status; reports whether it did. |
| ToolApprovalService.ApprovalRequestRepository.ExpireAllPending | packages/api/src/db/approval-request.repository.ts:85-91 | Afterwards no row is pending; rows that were not are untouched, the others keep all but their status; the count is zero iff nothing changed. |
| ToolApprovalService.UserToolApprovalRepository.FindForKeys | packages/api/src/db/user-tool-approval.repository.ts:38-46 | Returns exactly the user's decisions for the tool at the given resources. |
| ToolApprovalService.UserToolApprovalRepository.DeleteByKey | packages/api/src/db/user-tool-approval.repository.ts:73-78 | Afterwards there is no decision about that subject, every other decision stands, and the answer says whether anything changed. |
| ToolApprovalService.ToolApprovalService.OpenCall | packages/api/src/engine/tool-registry.ts:326-373 | A call is exempt iff the tool wants no approval or its own predicate says false outright; blocked iff it is not and there is no context; else it waits for the user and session of the context, with the scope its tool declares, call scope if it declares none; its resource is what the extractor made, for a resource scope only, and the extractor counts as failed iff there is none. No other call changes. |
| ToolApprovalService.ToolApprovalService.Decide | packages/api/src/approvals/tool-approval.service.ts:230-286 | The turn after the fetch: allowed iff the precedence rule allows; denied iff it denies, or has no verdict and no human can be asked; else a human is asked, after an extractor failure in any case. |
| ToolApprovalService.ToolApprovalService.FetchRows | packages/api/src/approvals/tool-approval.service.ts:186-191 | What is fetched is the user's standing decisions for the tool at the call's own resource and in general. |
| ToolApprovalService.ToolApprovalService.WriteRow | packages/api/src/approvals/tool-approval.service.ts:236-297 | One row is added and no other changes: pending for a prompt; denied, naming store and key of the decision that denied it, if any, for a denial, which is final and asks nobody. |
| ToolApprovalService.ToolApprovalService.PromptDelivered | packages/api/src/approvals/tool-approval.service.ts:303-373 | Undelivered or aborted: denied for good, whatever happens later, and no human can answer. Otherwise one rendezvous opens, under the call's own row, for its own user, with the choices its scope allows; no other is touched. |
| ToolApprovalService.ToolApprovalService.DenyUndelivered | packages/api/src/approvals/tool-approval.service.ts:315-324 | The row of an undelivered prompt is denied if it is pending, no other row changes, and the call is denied for good. |
| ToolApprovalService.ToolApprovalService.OnTimeout | packages/api/src/approvals/tool-approval.service.ts:363-364 | A waiting call is denied for good; for any other call the timer does nothing. |
| ToolApprovalService.ToolApprovalService.OnAbort | packages/api/src/approvals/tool-approval.service.ts:365-366 | A waiting call is denied for good; for any other call the signal does nothing. |
| ToolApprovalService.ToolApprovalService.Finish | packages/api/src/approvals/tool-approval.service.ts:352-361 | After it the call does not wait and no second answer changes anything; the call is denied for good iff the answer that came first does not allow. |
| ToolApprovalService.ToolApprovalService.OnResolve | packages/api/src/approvals/tool-approval.service.ts:455-470 | Accepted iff the rendezvous is open and the user owns it; then the resolution is the strongest offered choice in the direction asked for, and flagged as downgraded iff the choice asked for was not on offer. |
| ToolApprovalService.ToolApprovalService.SettleCall | packages/api/src/approvals/tool-approval.service.ts:375-433 | A session choice is remembered under the call's own key and nowhere else, any other answer leaves session memory as it is; the call is denied for good iff the answer does not allow; what is left to do follows from the answer. |
| ToolApprovalService.ToolApprovalService.StoreDecision | packages/api/src/approvals/tool-approval.service.ts:423-432 | The standing decision about the call's own user, tool and resource is the direction of the choice, and every other one stands. |
| ToolApprovalService.ToolApprovalService.CloseCall | packages/api/src/approvals/tool-approval.service.ts:434-452 | The gate answers what the settled choice says, and a refusal is final; a pending row gets the status, store and key of that choice. |
| ToolApprovalService.ToolApprovalService.ExecuteTool | packages/api/src/engine/tool-registry.ts:401-409 | The tool runs iff its call is exempt or the gate allowed it, and it has not run yet. |
| ToolApprovalService.ToolApprovalService.ClearSession | packages/api/src/approvals/tool-approval.service.ts:154-156 | The session remembers nothing, and every other session what it did. |
| ToolApprovalService.ToolApprovalService.RevokeDecision | packages/api/src/approvals/tool-approval.service.ts:472-489 | Lifts exactly the one decision that the row's key names in the store it names, for the row's own user; any other decision stands, and the answer says whether a decision was lifted. |
| ToolApprovalService.ToolApprovalService.OnModuleInit | packages/api/src/approvals/tool-approval.service.ts:125-137 | After a restart no row is pending, no session memory is left, and every call that had not run is denied for good. |
| ToolApprovalService.ToolApprovalService.RanWithConsent | packages/api/src/engine/tool-registry.ts:320-407 | Whatever turns the service object takes, a gated tool that ran had consent. |
| ContainerPoolSafety.LruIsLeastRecent | packages/api/src/engine/container-pool.service.ts:337-347 | Eviction picks an idle entry that no idle entry was used before, or finds that none is idle. |
| ContainerPoolSafety.EvictionFreesASlot | packages/api/src/engine/container-pool.service.ts:277-281 | The evicted entry is not ephemeral, so exactly one warm slot becomes free. |
| ContainerPoolSafety.PoolStaysBounded | packages/api/src/engine/container-pool.service.ts:64-359 | Over any sequence of operations: both capacity bounds, one entry per session, ephemeral entries never idle, a timer iff idle. |
| ContainerPoolSafety.NoContainerIsLost | packages/api/src/engine/container-pool.service.ts:64-359 | If callers release only what they hold: every started container is in the pool exactly once or was asked to stop, and the running timers are exactly those of idle entries. |
| ContainerPoolSafety.ReleaseIsSoundExactly | packages/api/src/engine/container-pool.service.ts:138-186 | A release keeps that invariant iff the session's container is not idle already. |
| ContainerPoolSafety.DoubleReleaseLosesAContainer | packages/api/src/engine/container-pool.service.ts:138-186 | Concrete run: released twice, evicted and started again, a session loses its new container to the stale timer. |
| ContainerPoolSafety.HealthRemovesExactly | packages/api/src/engine/container-pool.service.ts:400-424 | The health check removes exactly the idle entries beyond their lifetime or dead. |
| ContainerPoolSafety.TimeoutIsKeptExactly | packages/api/src/engine/container-pool.service.ts:76-106 | Acquiring puts the idle timeout asked for, or the default, capped at the maximum, in force iff no old or dead container is recycled, or the default happens to be the same. |
| ContainerPoolSafety.ForgottenTimeoutShows | packages/api/src/engine/container-pool.service.ts:76-106 | Concrete run of a disciplined caller: asked to keep nothing warm after its container died, the pool keeps the new container warm for the default time. |
| ContainerPoolService.ContainerPoolService.EvictLRU | packages/api/src/engine/container-pool.service.ts:337-359 | The scan evicts exactly the least recently used idle entry. |
| ContainerPoolService.ContainerPoolService.StartFresh | packages/api/src/engine/container-pool.service.ts:267-316 | A new container iff starting one succeeds and there is a free warm slot, an idle entry to evict or room for an ephemeral one, used in this order; otherwise the session has none and is not locked. |
| ContainerPoolService.ContainerPoolService.AcquireContainer | packages/api/src/engine/container-pool.service.ts:64-132 | The session's own container if it is within its lifetime and alive; otherwise a new one iff starting succeeds and there is room; what is returned is the session's container, in use; if nothing is, the session has none and is not locked. |
| ContainerPoolService.ContainerPoolService.ReleaseContainer | packages/api/src/engine/container-pool.service.ts:138-186 | Stops an ephemeral or zero-timeout container, keeps any other idle under a new timer of its own; the session is unlocked either way. |
| ContainerPoolService.ContainerPoolService.RunHealthCheck | packages/api/src/engine/container-pool.service.ts:400-424 | The loop over the pool is exactly the health scan. |
| ContainerPoolService.ContainerPoolService.Drain | packages/api/src/engine/container-pool.service.ts:214-243 | Empties the pool, stops every container and every timer, frees every lock. |
| ContainerPoolService.ContainerPoolService.Stats | packages/api/src/engine/container-pool.service.ts:249-261 | Every entry is counted once, and the counts are within the configured bounds. |
| ToolParameters.ValidateObject | packages/api/src/engine/tool-registry.ts:62-128 | The report names exactly the problems of the object and of the objects in it, each with its full path; it is empty iff the object conforms to the schema, all the way down. A required name that every object inherits is never missing. |
| ToolParameters.FitsExactly | packages/api/src/engine/tool-registry.ts:46-122 | A value fits its schema iff its kind is one the type admits (an integer is a whole number), it is listed where choices are, a number lies within the bounds, a string within the lengths, and a nested object conforms. |
| ToolParameters.CastObject | packages/api/src/engine/tool-registry.ts:159-189 | Same names in the same order; a declared value becomes what its schema makes of it (a word for a truth value that truth value, a string that starts with a number that number, an object or array of declared fields one with its fields cast), and nothing else changes. |
| ToolParameters.CastIsUnique | packages/api/src/engine/tool-registry.ts:135-189 | There is only one way to cast an object: the relation that says what casting makes of a value leaves nothing open. |
| ToolParameters.CastValueExactly | packages/api/src/engine/tool-registry.ts:135-156 | Only a string is ever cast: true, 1 and yes in any case to true, false, 0 and no to false, and to a number exactly the one the parser reads. A value passes the type check once cast iff it passed before or is such a string. |
| ToolParameters.CastIsIdempotent | packages/api/src/engine/tool-registry.ts:159-189 | Casting twice is casting once, for any number parser. |
| ToolParameters.CastKeepsConforming | packages/api/src/engine/tool-registry.ts:135-189 | Casting does nothing to a conforming object. |
| ToolParameters.ArrayPassesExactly | packages/api/src/engine/tool-registry.ts:174-180 | An array never fits a schema with declared properties; cast to an object it passes iff the schema lists no choices, every required name is the index of an item or inherited by every object, and every item with a declared index fits once cast. |
| ToolParameters.ArrayPasses | packages/api/src/engine/tool-registry.ts:174-180 | Concrete input: an array of one numeral passes for an object with a required integer field. |
| ToolParameters.StripConformsExactly | packages/api/src/engine/tool-registry.ts:192-205 | Stripping a conforming object keeps it conforming iff every required field is declared or an inherited name. |
| ToolParameters.StrictParameters | packages/api/src/engine/tool-registry.ts:299-312 | The tool gets parameters iff the cast ones conform, and then exactly the cast ones whose name is declared or inherited by every object; so only declared ones iff no parameter bears an undeclared inherited name. |
| ToolParameters.InheritedNameGetsThrough | packages/api/src/engine/tool-registry.ts:192-205 | Concrete input: a parameter named toString reaches a tool that declares no parameters. |
| ToolParameters.InheritedNameIsNeverMissing | packages/api/src/engine/tool-registry.ts:70-77 | An empty object conforms to a schema that requires inherited names only. |

## Left out

- Prisma, Redis connections, Docker commands, HTTP, channels, metrics, logging, audit entries and prompt
  texts: I/O or library calls. Redis list commands are atomic sequence operations.
- Eventual delivery: the sweep scans only processing lists and a notification is skipped while the lock is
  held, so a result may wait for the next trigger. Only safety is stated.
- Redis key expiry: a counter that expires between its increment and its decrement would go negative.
- SessionDeliveryService.SessionDelivery.RequeueProcessing: one session; the key scan over all sessions and
  the notification after it are not modelled.
- SessionDeliveryService.SessionDelivery.TryDeliverResults: the lock token, its renewal and its release are
  not modelled; a lost lock is a second deliverer in `Delivery`. The queue length is read without error.
- SchedulerFairness.WorkConservation: needs one quota per user; without it `CancelConservesExactly` says
  exactly when the property survives a cancellation.
- Scheduler configuration values are numbers; a NaN from an unparseable environment variable is not modelled.
- Progress forwarding, heartbeats, slow-tool warnings and observers of the reasoning loop: they only report.
- `truncateLargeContent` and the formatting for the summarizer: they only shape the summarizer's input, and the
  summary is an oracle.
- BudgetTracking.BudgetTracker.constructor: the grace limit is given, not computed in floating point from the
  percentage.
- Recovery: jitter on the backoff; the wait is represented by whether an abort happens in it.
- Error-message classification: an oracle in `Recovery`.
- ApprovalSafety: that `resolve` answered ok does not mean its choice won; the latch decides later.
- ToolApprovalService.ToolApprovalService.RevokeDecision: reading the row and deleting the decision are one step;
  a closed row never changes, so nothing can come between that matters.
- Database commands that throw after taking effect are not distinguished in the approval flow.
- ContainerPoolSafety.PoolStaysBounded: operations are atomic. Slots are counted before two awaits and used
  after them, so interleaved starts can exceed the bounds in the source.
- Waiting for the per-session lock of the pool: locks are a set that an acquire may take over, as it does after
  the timeout. The host capacity ledger and the Python pool are not part of this model.
- ToolParameters.ValidateObject: the texts of the messages beyond kind and path are not modelled.
- ToolParameters.StrictParameters: the inherited names are those that stand for functions; a parameter named
  `__proto__`, which changes the prototype of the object it is copied to, is not modelled.
- Output truncation and error hints of the tool registry, session message ordering, memory consolidation, cron
  dates, wiki, groups and audit: they would add only easy members or are library-bound.
