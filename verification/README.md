# Verified models of the serving stack

This project models the parts of the stack whose correctness depends on the order of events, and proves what they
promise. `dafny verify dfyconfig.toml` checks everything.

**Asynchronous speculative scheduling.** The scheduler runs ahead of the GPU: several steps of a request are in flight,
and its counters already include them. `RequestMachine` is one request as a state machine on values, beside an
independent account of what the workers computed; `RequestSafety` holds its invariant and the results over all runs.
`RequestOutcomes` says what becomes of every output: exactly when it finishes the request and, by the history of the
actions alone, exactly when it reaches the client. `AsyncRequest` is the request as the mutable object the scheduler keeps,
each method proved to take the machine's step. `SchedulePlan`, `RunningLoop` and `WaitingQueues` are the plan with its two
budgets and the queues, on values; `Turns` and `Admissions` say whose turn it was in the two loops, what it was offered,
and why a request was passed over or a loop ended. `Scheduling` is `schedule()` itself: the preempting loop over the
running requests, the waiting loop, the update that follows, and `update_from_output` over a batch. `Deliveries` has the
queues without the stopped requests, and the results over any sequence of scheduler calls.
`DeferredFrees`, `MambaSplit` and `InvalidBlocks` are block freeing behind sequence fences, the block-aligned chunk
splitter, and recovery from blocks that failed to load.

**Split-phase draft scatter (patch 0022).** `DraftScatter` proves that consuming a broadcast slot in two halves, with
rows freed and reused in between, refines consuming it at once. `DraftArrival` says which rows a slot reaches, and which
positions of `input_ids`.

**Draft length.** `SpecRoll` is the estimator and its choice, `RollState` the per-request state and class, `RollRuns`
what every run keeps. `RollFlights` adds the budgets that are asked for ahead of their outputs; `RollProbes` shows when
probing cannot raise the length, `RollWindows` counts how many probes a window can hold, and `RollClimbs` has the run
that climbs otherwise.
`StaticBudget` is the runner-side compaction, `TrimmedRuns` its invisibility to the scheduler over whole runs, and
`ConfidenceGate` the gate in its four forms.

**Addressing and launch shape.** `KdaStrided` is the in-place reading of the recurrence's inputs, `MlaSplit` the number of
key-value splits. `Arithmetic`, `Options` and `Sequences` hold what the modules share.

Code that changes state is modelled by classes and loops, each proved against a function on values about which the main
results are stated. Code that the patch scripts insert is modelled as the code. Floating point is modelled by `real`.

## Modelling assumptions

- Autoregressive model: one sampled token per step besides the drafts. A sampling step returns between one and
  1 + drafts tokens, a prefill chunk none. Prompts are shorter than `max_model_len`. Requests are not resumable streams.
- Outputs are processed in the order their steps were scheduled. A worker's row of a request is created by the step that
  admits it. A request that finished leaves the scheduler's table, so its counters are no longer updated.
- `dynamic_sd_lookup` is set (as in serving/launch.example.sh:37), which disables the padded admission of new decodes.
- `check_stop` is not in the repository: it stops when the length reaches `max_model_len`, the output reaches
  `max_tokens`, or the last token is a stop token.
- `allocate_slots` succeeds or fails unpredictably. The draft budget of a request's next step is any number. A prefix
  cache hit is any number of tokens below the request's length.
- `combine_sampled_and_draft_tokens` writes, for every request of the batch that is past its prefill, its last sampled
  token and then its draft row. The rest of `PPHandler` hands over slots whose rows are distinct, whose generations are
  not newer than the current ones, and whose up-to-date rows belong to live requests.
- `next_power_of_2` is the least power of two that is at least its argument.
- The entries of the step table are positive. It may fall; past its end times are extrapolated, and results speak of runs
  whose depths all get a positive time. Only `RollRuns.RejectionForcesFloor`, `SpecRoll.NondecreasingIsPriced` and
  `SpecRoll.GreedyAgrees` need a table that never falls.
- A draft budget is used by at most one step, which drafts no more than it allows (`VLLM_SPEC_ROLL_SOLO` is off), and
  outputs arrive in the order their budgets were asked for. A step that drafts nothing, is preempted or comes back stale
  is an output with no drafts. The probing results take the number of budgets that may be outstanding as a parameter, the
  lag: 1 where a budget is asked for after the output of the step before, at least 2 under asynchronous scheduling, which
  asks for the next budget when a step is scheduled.
- The rows of a slot's draft tensor are equally long and fit the runner's draft rows.

## Where code and documentation differ

- The module text of kernels/spec_roll.py:16-17 calls k the deepest position with P_j >= tau_j; the code takes the
  maximum of the score, and `_tau` and `TAU_MIN` take no part in it. They differ: `SpecRoll.DeepestIsNotChosen` has a
  window where the first is 3 and the second 1. A single position beats its break-even exactly when it improves the score,
  but for one case (`SpecRoll.BreakEven`, `SpecRoll.FreeRejection`). Walking the positions to the first that does not pay
  agrees with the choice under a shape condition (`SpecRoll.GreedyAgrees`) and not in general (`SpecRoll.WalkIsNotChosen`).
- kernels/spec_roll.py:18-19 says probes let an improving request climb again and gives 32/6 as a working size. The
  defaults in lines 30-53 are 16/6 with 4 observations, and line 162 multiplies the period by 4 from step 48 on. Where
  budgets and outputs alternate, a window of 16 holds at most three probes at any age, so only the jump rule can raise
  the length, and 32/6 works for young requests only. Under asynchronous scheduling several outputs can answer budgets
  asked for at one probing step, as when a step in between drafts nothing. With two budgets outstanding the defaults can
  climb until they settle and 32/6 also afterwards (`RollWindows.DocumentedSizes`, `RollClimbs.DefaultsClimbAtTwo`).
  `RollClimbs.ClimbsExactly` and `RollClimbs.SettledClimbsExactly` give the exact condition for every lag.
- The comment in kernels/spec_roll.py:147-150 says JUMP_N fully accepted steps go straight to the ceiling. A JUMP_N above
  WINDOW is accepted and never does (`RollRuns.JumpExactly`).
- The chunk splitter's text (kernels/files/pristine/vllm/v1/core/sched/scheduler.py:360-368) lists the shared-prefix
  junction among the positions a chunk stops at. A chunk that ends the prefill can run past it
  (`MambaSplit.JunctionVisitedExactly`).
- `max(rc, min(KMIN, cap))` in kernels/spec_roll.py:165 suggests a floor on every budget, but the probing return in line
  164 bypasses it. `RollRuns.FloorExactly` gives the configurations for which the floor holds on every run; the defaults
  are among them.
- The tensor form of the confidence gate says a threshold <= 0 disables it. It does so only for confidences that reach
  the threshold (`ConfidenceGate.TwinsAgreeExactly`).
- The comment in kernels/files/pristine/vllm/v1/core/sched/scheduler.py:2420-2422 is exact: deferred blocks can wait one
  step longer than their fence, never more.
- The comment in kernels/files/pristine/vllm/v1/core/sched/scheduler.py:1329-1335 says that output in flight at a preemption
  is still delivered and that an undrained dropped share stays dropped. The flag is one per request: while dropped output
  is in flight, such a preemption also loses the steps scheduled since (`RequestOutcomes.LostWithoutDropping`).
  `RequestOutcomes.HandedOutExactly` has the exact condition.

## Model

| member | source | states |
|---|---|---|
| `RequestSafety.ExactlyOnce` | kernels/files/pristine/vllm/v1/core/sched/scheduler.py:1768-1819 | Over every run of schedule, deliver, preempt (either mode, also with stale output pending), resume and abort: the blocks handed out, at the positions where the worker produced them, follow each other without gap or overlap, and the token list is the initial one followed by exactly those blocks |
| `RequestSafety.OutputExtends` | kernels/files/pristine/vllm/v1/core/sched/scheduler.py:1792-1846 | One action emits at most one block; it starts at the request's current `num_tokens` and is all the token list grows by |
| `RequestSafety.OptimisticAccounting` | kernels/files/pristine/vllm/v1/core/sched/async_scheduler.py:19-63 | In every reachable state: in-flight tokens and placeholders are exact sums over the steps in flight (placeholders: one plus the drafts of every non-stale sampling step), past prefill C = num_tokens + P - 1, 0 <= C <= max_model_len - 1, and with nothing in flight the worker's row agrees |
| `RequestSafety.StaleClassification` | kernels/files/pristine/vllm/v1/core/sched/scheduler.py:1330-1341 | In every reachable state the stale counter is the token total of exactly the steps scheduled before the last preemption, these are a FIFO prefix, and it is positive iff the next step to be delivered is one of them |
| `RequestSafety.StaleAtHead` | kernels/files/pristine/vllm/v1/core/sched/scheduler.py:1772-1778 | For any ordered queue: the stale sum is positive iff the head predates the last preemption, and reaches zero exactly at the boundary |
| `RequestSafety.StalePrefix` | kernels/files/pristine/vllm/v1/core/sched/scheduler.py:1334-1341 | The steps of earlier epochs are a prefix of the queue and carry the whole stale sum |
| `RequestSafety.NextKeeps` | kernels/files/pristine/vllm/v1/core/sched/scheduler.py:1307-1376 | Every action, with either preemption mode, keeps the full invariant that ties the scheduler's counters to an independent account of the worker |
| `RequestSafety.RunKeeps` | kernels/files/pristine/vllm/v1/core/sched/scheduler.py:1307-1376 | The invariant holds after every run from a state that has it |
| `RequestSafety.InitialInv` | kernels/files/pristine/vllm/v1/request.py:144-174 | A fresh request satisfies the invariant |
| `RequestSafety.ScheduledShape` | kernels/files/pristine/vllm/v1/core/sched/scheduler.py:539-599 | What the running loop schedules stays within the allowance and below max_model_len; a prefill chunk carries no drafts, a decode step is exactly one token plus its drafts however the budgets clip it |
| `RequestSafety.ScheduleKeeps` | kernels/files/pristine/vllm/v1/core/sched/scheduler.py:539-557 | Scheduling ahead keeps the invariant under every clipping of the token count |
| `RequestSafety.ResumeKeeps` | kernels/files/pristine/vllm/v1/core/sched/scheduler.py:757-766 | Resuming behind nothing but dropped stale steps keeps it, for every number of cached tokens |
| `RequestSafety.PreemptKeeps` | kernels/files/pristine/vllm/v1/core/sched/scheduler.py:1320-1342 | Preempting, also again while stale output is pending, keeps it |
| `RequestSafety.DeliverLiveKeeps` | kernels/files/pristine/vllm/v1/core/sched/scheduler.py:1804-1819 | A non-stale delivery with its rejection rollback keeps it |
| `RequestSafety.DeliverStaleKeeps` | kernels/files/pristine/vllm/v1/core/sched/scheduler.py:1811-1819 | A stale delivery appends its tokens and touches no reset counter |
| `RequestSafety.DropKeeps` | kernels/files/pristine/vllm/v1/core/sched/scheduler.py:1792-1794 | A dropped delivery keeps it |
| `RequestSafety.DeliveryInOrder` | kernels/files/pristine/vllm/v1/core/sched/scheduler.py:1768-1800 | A delivery that is not dropped starts in the worker where the scheduler's token list ends, and the worker sampled iff placeholders were reserved |
| `RequestSafety.PlaceholdersSuffice` | kernels/files/pristine/vllm/v1/core/sched/async_scheduler.py:59-63 | Placeholders never underflow, and after a delivery are exactly what the remaining steps promise; C falls by exactly the rejected drafts |
| `RequestSafety.CountersSuffice` | kernels/files/pristine/vllm/v1/core/sched/scheduler.py:1775-1778 | The two assertions on the stale counter and on the placeholders hold in every delivery |
| `RequestSafety.ExecuteHead` | kernels/files/pristine/vllm/v1/core/sched/scheduler.py:1358-1359 | Rejecting drafts of the head shifts the optimistic execution of all later steps by exactly the rejected count and changes no decision in it |
| `RequestSafety.NeverStuck` | kernels/files/pristine/vllm/v1/core/sched/scheduler.py:539-599 | A running request with nothing in flight can be scheduled with any positive budget, except that a prefilling one whose Mamba block fits the chunk limit needs a block, or a budget that reaches the end of its prefill |
| `RequestSafety.SkippedExactly` | kernels/files/pristine/vllm/v1/core/sched/scheduler.py:511-525 | The max-tokens guard fires iff output is pending and one more token reaches max_tokens; a live sampling step is then in flight |
| `RequestSafety.SkippedFinishes` | kernels/files/pristine/vllm/v1/core/sched/scheduler.py:511-525 | For a skipped request the next live sampling output finishes it at exactly max_tokens |
| `RequestSafety.LeastOfFour` | kernels/files/pristine/vllm/v1/core/sched/scheduler.py:539-557 | Before alignment the count is exactly the least of what the request wants, the chunk limit, what it is offered and what the model length leaves; past the prefill and without alignment it is that number |
| `RequestSafety.LeastOfThree` | kernels/files/pristine/vllm/v1/core/sched/scheduler.py:905-946 | The same for a request that resumes: the least of its uncached tokens, the chunk limit and the offer |
| `RequestSafety.BudgetIsVerified` | kernels/files/pristine/vllm/v1/core/sched/async_scheduler.py:31-48 | A request that sampled with a draft budget of k asks for 1 + k tokens next, k of them drafts, whatever was delivered in between, and gets them all when nothing limits it |
| `RequestOutcomes.FinishesExactly` | kernels/files/pristine/vllm/v1/core/sched/scheduler.py:2155-2160 | A delivery that is not dropped appends the output up to the first token that ends the request, and finishes it iff the new token list is at full length, has max_tokens output tokens, or ends in a stop token |
| `RequestOutcomes.AppendsUpToEnd` | kernels/files/pristine/vllm/v1/core/sched/scheduler.py:2144-2161 | What is kept is the shortest prefix after which one of the three holds, or everything |
| `RequestOutcomes.EndsExactly` | kernels/files/pristine/vllm/v1/core/sched/scheduler.py:1942-1953 | Over every run from such a state: a request whose output has ended is finished, and only then, unless aborted |
| `RequestOutcomes.FinishedExactly` | kernels/files/pristine/vllm/v1/core/sched/scheduler.py:1942-1953 | Over every run from a fresh request: no unfinished request has an output that ends in one of the three; without an abort it is finished iff its output does; neither limit is ever exceeded |
| `RequestOutcomes.HandedOutExactly` | kernels/files/pristine/vllm/v1/core/sched/scheduler.py:1768-1846 | Over every run, by the history of the actions alone: the next non-empty output reaches the client, at the end of the token list and up to its end, iff the request is unfinished and the output was not lost - to a preemption in drop mode after its step was scheduled, or to any preemption while something lost was in flight |
| `RequestOutcomes.DeliverModeDelivers` | kernels/files/pristine/vllm/v1/core/sched/scheduler.py:1329-1338 | With nothing lost in flight and only preemptions in the other mode since, every output of an unfinished request is handed out |
| `RequestOutcomes.DeliverModeLosesNothing` | kernels/files/pristine/vllm/v1/core/sched/scheduler.py:1333-1338 | Only a preemption in drop mode can begin a loss |
| `RequestOutcomes.DroppingLoses` | kernels/files/pristine/vllm/v1/core/sched/scheduler.py:1329-1338 | It loses every step in flight |
| `RequestOutcomes.LostStaysLost` | kernels/files/pristine/vllm/v1/core/sched/scheduler.py:1773-1778 | What is lost stays so until its turn |
| `RequestOutcomes.LostWithoutDropping` | kernels/files/pristine/vllm/v1/core/sched/scheduler.py:1333-1338 | A step scheduled after the drop is lost too, if the request is preempted again in the other mode before the dropped output is back |
| `RequestMachine.AppendUntilStop` | kernels/files/pristine/vllm/v1/core/sched/scheduler.py:2144-2161 | The kept part is a prefix of the output, non-empty when the output is, ends in a stop iff one is reported, and never exceeds the limits |
| `RequestMachine.AlignChunk` | kernels/files/pristine/vllm/v1/core/sched/scheduler.py:559-563 | Alignment never enlarges a chunk, never makes it negative, and leaves decode steps alone |
| `AsyncRequest.Request.constructor` | kernels/files/pristine/vllm/v1/request.py:144-189 | A new object is the initial state of the machine |
| `AsyncRequest.Request.NumNewTokensWithin` | kernels/files/pristine/vllm/v1/core/sched/scheduler.py:539-563 | Computes the machine's token count for any allowance |
| `AsyncRequest.Request.TakeDrafts` | kernels/files/pristine/vllm/v1/core/sched/scheduler.py:683-698 | Returns how many drafts fit the scheduled tokens and clears the list |
| `AsyncRequest.Request.AfterSchedule` | kernels/files/pristine/vllm/v1/core/sched/async_scheduler.py:19-49 | The object takes the machine's step, which joins the FIFO of steps in flight; a step that samples sets the step from which the request may decode again |
| `AsyncRequest.Request.MarkPreempted` | kernels/files/pristine/vllm/v1/core/sched/scheduler.py:1326-1342 | The object's counters become those of the machine's preemption, in the mode asked for; nothing in flight and not the cadence changes |
| `AsyncRequest.Request.NumAdmittedWithin` | kernels/files/pristine/vllm/v1/core/sched/scheduler.py:905-957 | Computes the machine's first chunk of a resumed request |
| `AsyncRequest.Request.LookUp` | kernels/files/pristine/vllm/v1/core/sched/scheduler.py:788-796 | The junction the cache reports is recorded whether or not the request is admitted; nothing else changes and the invariant holds |
| `AsyncRequest.Request.Resume` | kernels/files/pristine/vllm/v1/core/sched/scheduler.py:1086-1107 | A request without deliverable stale output takes the machine's resume step and keeps the invariant |
| `AsyncRequest.Request.UpdateRequestWithOutput` | kernels/files/pristine/vllm/v1/core/sched/scheduler.py:2144-2161 | The append loop computes AppendUntilStop; a stale delivery leaves the placeholders |
| `AsyncRequest.Request.DrainStep` | kernels/files/pristine/vllm/v1/core/sched/scheduler.py:1772-1778 | In-flight and stale counts fall in lockstep and the assertion holds |
| `AsyncRequest.Request.RollBackRejected` | kernels/files/pristine/vllm/v1/core/sched/scheduler.py:1815-1819 | Rolls both counters back as the machine does |
| `AsyncRequest.Request.ApplyOutput` | kernels/files/pristine/vllm/v1/core/sched/scheduler.py:1768-1846 | The whole per-request delivery computes the machine's delivery, and hands out exactly the kept tokens of an output that is not dropped |
| `AsyncRequest.Request.UpdateFromOutput` | kernels/files/pristine/vllm/v1/core/sched/scheduler.py:1768-1846 | Keeps the invariant, takes the machine's Deliver step, and returns the block the machine emits |
| `Scheduling.Scheduler.Schedule` | kernels/files/pristine/vllm/v1/core/sched/scheduler.py:444-1286 | One call takes at most one action of the machine per request - a schedule, a preemption, a cache lookup or a resume - and leaves every other request unchanged; the plan holds exactly the requests that took a schedule or a resume, the admitted ones are exactly the resumed. Every request that still runs is in the plan or was passed over for a reason spelled out on the step's beginning, or the running loop ended before it for a stated reason; in the plan is nobody with such a reason, and no more decodes than the cap. Every request was offered exactly what those before it left of both budgets (up to what preempted ones gave back). Unless the step preempted or admissions are paused, everyone waiting was admitted, must wait for output, or comes after the point where the waiting loop ended for a stated reason. Each refusal of blocks costs one preemption or ends the admissions. Both budgets balance, nobody is lost or in two queues, the running requests keep their order, and the cadence moves on for exactly the scheduled requests whose step samples |
| `Scheduling.Scheduler.ScheduleRunningStep` | kernels/files/pristine/vllm/v1/core/sched/scheduler.py:491-698 | The running part with its update: every request that was running has taken exactly the action recorded for it; preempted requests head the waiting queue in reverse order; who is left out was passed over for a reason or comes after the end of the loop; nothing is scheduled while paused |
| `Scheduling.Scheduler.ScheduleRunningPart` | kernels/files/pristine/vllm/v1/core/sched/scheduler.py:491-698 | Seen with all queues: a running request is in the plan iff it took a schedule action, preempted requests have moved to the waiting queue, nobody else moved |
| `Scheduling.Scheduler.AdmitAfter` | kernels/files/pristine/vllm/v1/core/sched/scheduler.py:725-1133 | The waiting part acts on requests the running part did not touch; afterwards the plan holds exactly the scheduled and the resumed requests, and the queues have been served as the waiting loop promises |
| `Scheduling.Scheduler.ScheduleWaiting` | kernels/files/pristine/vllm/v1/core/sched/scheduler.py:725-1133 | Admitted requests have resumed with what the cache answered and are exactly what the plan gained, in order; all others at most had their junction looked up; the three queues hold the same requests as before; both queues were served from the front, those set aside must wait, and admissions ended for a stated reason |
| `Scheduling.Scheduler.WaitingPass` | kernels/files/pristine/vllm/v1/core/sched/scheduler.py:729-1133 | The loop terminates; it ends because both queues are empty, a budget or the room to run is used up, or a head was turned away - its prefill deferred, no token left for it, or its blocks refused; passed-over requests are back ahead of the older skipped ones |
| `Scheduling.Scheduler.ConsiderWaiting` | kernels/files/pristine/vllm/v1/core/sched/scheduler.py:729-766 | One turn: deliverable stale output sets the head aside and the loop goes on; every turn that continues shortens the queues; a turn that does not has one of the stated reasons |
| `Scheduling.Scheduler.Examine` | kernels/files/pristine/vllm/v1/core/sched/scheduler.py:788-1107 | A head is admitted, or stays the head for one of the three reasons; only it is touched |
| `Scheduling.Scheduler.LookUpHead` | kernels/files/pristine/vllm/v1/core/sched/scheduler.py:788-796 | The lookup touches the head alone |
| `Scheduling.Scheduler.AdmitHead` | kernels/files/pristine/vllm/v1/core/sched/scheduler.py:1053-1107 | The head moves to `running` and is charged to both budgets |
| `Scheduling.Scheduler.LookUpRequest` | kernels/files/pristine/vllm/v1/core/sched/scheduler.py:788-796 | The request takes the machine's lookup with the junction the cache answered |
| `Scheduling.Scheduler.AdmitRequest` | kernels/files/pristine/vllm/v1/core/sched/scheduler.py:1086-1107 | The request takes the machine's resume from its state before the lookup, with the cache's hit and junction, and its new step carries the planned count |
| `Scheduling.Scheduler.TryAdmit` | kernels/files/pristine/vllm/v1/core/sched/scheduler.py:900-1025 | A positive count lies within both budgets and is the machine's for everything that is left; none means deferral, an empty chunk, or refused blocks |
| `Scheduling.Scheduler.SelectsSkipped` | kernels/files/pristine/vllm/v1/core/sched/scheduler.py:2114-2124 | FCFS takes skipped requests first, PRIORITY the more urgent head |
| `WaitingQueues.HeadIsFree` | kernels/files/pristine/vllm/v1/core/sched/scheduler.py:738-742 | The head of a queue is in no other queue and not running |
| `WaitingQueues.HeadToHeld` | kernels/files/pristine/vllm/v1/core/sched/scheduler.py:764-766 | Setting a head aside keeps everybody in exactly one place |
| `WaitingQueues.HeadToRunning` | kernels/files/pristine/vllm/v1/core/sched/scheduler.py:1053-1086 | So does admitting it, within the limit on running requests |
| `WaitingQueues.StillQueued` | kernels/files/pristine/vllm/v1/core/sched/scheduler.py:1346-1348 | Preempted requests move from the running ones to the waiting ones |
| `WaitingQueues.LookupThenResume` | kernels/files/pristine/vllm/v1/core/sched/scheduler.py:788-796 | An admission after the lookup is the machine's admission with that junction |
| `WaitingQueues.JoinActed` | kernels/files/pristine/vllm/v1/core/sched/scheduler.py:444-1286 | Running and waiting part together act at most once on each request |
| `WaitingQueues.JoinKinds` | kernels/files/pristine/vllm/v1/core/sched/scheduler.py:444-1286 | Planned are exactly the requests scheduled by the running part or resumed by the waiting part |
| `Scheduling.Scheduler.constructor` | kernels/files/pristine/vllm/v1/core/sched/scheduler.py:110-296 | A new scheduler has empty queues and satisfies what schedule() needs |
| `Scheduling.Scheduler.AddRequest` | kernels/files/pristine/vllm/v1/core/sched/scheduler.py:2263-2281 | A new request joins the waiting queue and nobody else moves |
| `Scheduling.Scheduler.UpdateFromOutput` | kernels/files/pristine/vllm/v1/core/sched/scheduler.py:1768-1999 | Every request of the batch takes the delivery of its oldest step and emits its block, no other request changes; those that stop leave the running, waiting or skipped queue and the others keep their order; the scheduler stays valid |
| `Scheduling.Scheduler.DeliverBatch` | kernels/files/pristine/vllm/v1/core/sched/scheduler.py:1768-1890 | The loop delivers to each request of the batch and sorts those that stop by where they were |
| `Deliveries.DeliverOne` | kernels/files/pristine/vllm/v1/core/sched/scheduler.py:1768-1890 | One request takes its delivery, seen with everybody else |
| `Deliveries.KeptAreNotFinished` | kernels/files/pristine/vllm/v1/core/sched/scheduler.py:1992-1999 | Removing the stopped requests leaves exactly those that are not finished, in order |
| `Deliveries.KeepOnce` | kernels/files/pristine/vllm/v1/core/sched/scheduler.py:1992-1999 | Nobody is in two queues afterwards |
| `Deliveries.CallsAreRuns` | kernels/files/pristine/vllm/v1/core/sched/scheduler.py:444-1999 | Over any sequence of scheduler calls the actions of each request are a run of the machine |
| `Deliveries.FleetExactlyOnce` | kernels/files/pristine/vllm/v1/core/sched/scheduler.py:444-1999 | So over any sequence of calls every request keeps its invariant, and its client gets every token once and in order |
| `Deliveries.ActedIsCall` | kernels/files/pristine/vllm/v1/core/sched/scheduler.py:444-1999 | A scheduler method after which everyone has acted is such a call |
| `Scheduling.Scheduler.ScheduleRunning` | kernels/files/pristine/vllm/v1/core/sched/scheduler.py:491-698 | The loop terminates (by 2*len(running) - req_index); everybody before the cursor is in the plan or was passed over for a reason, and the cursor stops short only when paused, when a budget is used up, or when the request at the cursor was itself the last that could be preempted |
| `Scheduling.Scheduler.ConsiderNext` | kernels/files/pristine/vllm/v1/core/sched/scheduler.py:498-680 | One pass settles the request at the cursor or ends the loop for a stated reason, keeps the plan balanced and the cursor right, and decreases 2*len(running) - req_index |
| `Scheduling.Scheduler.Decide` | kernels/files/pristine/vllm/v1/core/sched/scheduler.py:502-599 | A request is skipped only for one of the listed reasons; one that is not gets a positive count, the machine's for exactly what both budgets leave |
| `Scheduling.Scheduler.ScheduleCurrent` | kernels/files/pristine/vllm/v1/core/sched/scheduler.py:601-680 | Either the request enters the plan, is counted as a decode if it is one, and 2*len(running) - req_index falls, or it was itself preempted and the loop ends |
| `Scheduling.Scheduler.MakeRoom` | kernels/files/pristine/vllm/v1/core/sched/scheduler.py:601-663 | Preempts once for each refusal until the blocks fit or the request itself went: on success `running[req_index]` is still the request and its grant still fits |
| `Scheduling.Scheduler.PreemptOne` | kernels/files/pristine/vllm/v1/core/sched/scheduler.py:614-659 | One victim leaves `running` and heads `waiting`; a victim already scheduled gives back its tokens and draft slots; under FCFS the victim was never scheduled in this step |
| `Scheduling.Scheduler.ChooseVictim` | kernels/files/pristine/vllm/v1/core/sched/scheduler.py:614-645 | The victim is a least urgent running request (or the tail under FCFS), the cursor follows a removal before it, and the budgets after the restore still balance |
| `Scheduling.Scheduler.LeastUrgent` | kernels/files/pristine/vllm/v1/core/sched/scheduler.py:617-620 | The maximum by (priority, arrival time) |
| `Scheduling.Scheduler.Skips` | kernels/files/pristine/vllm/v1/core/sched/scheduler.py:502-537 | A request is passed over iff it is under the max-tokens guard, the decode cap of the batch is full, its decode cadence has not come round, or prefills are deferred |
| `Scheduling.Scheduler.PreemptVictim` | kernels/files/pristine/vllm/v1/core/sched/scheduler.py:1307-1348 | The victim takes the machine's preemption, dropping its output iff a connector needs its blocks delivered, and is prepended to the waiting queue |
| `Scheduling.Scheduler.Commit` | kernels/files/pristine/vllm/v1/core/sched/scheduler.py:668-698 | Adding the request keeps both budgets balanced and moves the cursor past it |
| `Scheduling.Scheduler.TakeTracked` | kernels/files/pristine/vllm/v1/core/sched/scheduler.py:683-698 | The planned entry is one the machine allows for the request's state at the start of the step |
| `Scheduling.Scheduler.UpdateOne` | kernels/files/pristine/vllm/v1/core/sched/scheduler.py:1350-1376 | One scheduled request takes its machine step |
| `Scheduling.Scheduler.UpdateScheduled` | kernels/files/pristine/vllm/v1/core/sched/async_scheduler.py:19-49 | Every scheduled request takes its machine step, no other request changes |
| `Scheduling.Scheduler.AllActed` | kernels/files/pristine/vllm/v1/core/sched/scheduler.py:1350-1376 | After the update every request has taken exactly the action recorded for it and still satisfies the invariant |
| `Scheduling.Scheduler.AllActedAlike` | kernels/files/pristine/vllm/v1/core/sched/scheduler.py:1350-1376 | The same for all of them at once, with the kind of action each one took |
| `Scheduling.Scheduler.UpdateAll` | kernels/files/pristine/vllm/v1/core/sched/scheduler.py:1350-1376 | The update loop yields that outcome |
| `RunningLoop.NotBehind` | kernels/files/pristine/vllm/v1/core/sched/scheduler.py:614-645 | A request at or after the cursor is not scheduled yet, so popping the tail restores nothing |
| `RunningLoop.RemoveKeepsPartition` | kernels/files/pristine/vllm/v1/core/sched/scheduler.py:616-645 | Removing a least urgent (or the last) request keeps the split of the original queue |
| `RunningLoop.RemoveKeepsCursor` | kernels/files/pristine/vllm/v1/core/sched/scheduler.py:623-629 | After the removal the cursor still points at the same request |
| `SchedulePlan.AddBalanced` | kernels/files/pristine/vllm/v1/core/sched/scheduler.py:676-679 | Both budgets stay the limits minus everything scheduled |
| `SchedulePlan.RestoreBalanced` | kernels/files/pristine/vllm/v1/core/sched/scheduler.py:631-637 | Restoring a victim gives back exactly its tokens and draft slots |
| `SchedulePlan.OfferedExactly` | kernels/files/pristine/vllm/v1/core/sched/scheduler.py:545-547 | Without preemptions of scheduled requests, each request's allowance is exactly the least of what those before it in the plan left of the two budgets |
| `SchedulePlan.OfferedWithout` | kernels/files/pristine/vllm/v1/core/sched/scheduler.py:631-637 | Taking a victim out of the plan leaves every other allowance within what was given back |
| `Turns.StillPassedOver` | kernels/files/pristine/vllm/v1/core/sched/scheduler.py:502-599 | A reason to have been passed over stays one for the rest of the step, whatever is scheduled or preempted after it |
| `Turns.SkipSettles` | kernels/files/pristine/vllm/v1/core/sched/scheduler.py:502-599 | Max-tokens guard, cadence, deferral, a full decode cap and an empty count are each such a reason |
| `Turns.FairSkip` | kernels/files/pristine/vllm/v1/core/sched/scheduler.py:502-599 | Moving the cursor over a request that was passed over keeps every promise of the loop |
| `Turns.FairCommit` | kernels/files/pristine/vllm/v1/core/sched/scheduler.py:668-680 | So does scheduling one that is due: nobody barred is scheduled, the decode count is right and within the cap, everybody was offered what was left |
| `Turns.FairEvict` | kernels/files/pristine/vllm/v1/core/sched/scheduler.py:614-645 | So does preempting any victim, scheduled or not, before or behind the cursor; no turn so far was offered less than before |
| `Turns.LastStand` | kernels/files/pristine/vllm/v1/core/sched/scheduler.py:656-663 | When the request at the cursor preempts itself, it was due, unscheduled, and the last that could be preempted |
| `Turns.NothingGivenBack` | kernels/files/pristine/vllm/v1/core/sched/scheduler.py:545-547 | In a step without preemptions every offer was exactly what was left |
| `RunningLoop.KeepOneLess` | kernels/files/pristine/vllm/v1/core/sched/scheduler.py:616-645 | Removing victims leaves the others in their order |
| `Admissions.AdmitInTurn` | kernels/files/pristine/vllm/v1/core/sched/scheduler.py:1053-1107 | Admitting the head keeps the order of the plan and of both queues, and charges what was offered |
| `Admissions.HoldInTurn` | kernels/files/pristine/vllm/v1/core/sched/scheduler.py:757-766 | Setting a head with deliverable stale output aside keeps them too |
| `Admissions.LookInTurn` | kernels/files/pristine/vllm/v1/core/sched/scheduler.py:788-796 | So does a lookup |
| `MambaSplit.VisitsMandatoryStops` | kernels/files/pristine/vllm/v1/core/sched/scheduler.py:355-430 | Every prefill that starts at or below a mandatory stop and gets that far ends a chunk exactly there, whatever the allowances: the last cacheable boundary, the active tail boundary, and the shared-prefix junction's block boundary where that holds |
| `MambaSplit.JunctionVisitedExactly` | kernels/files/pristine/vllm/v1/core/sched/scheduler.py:421-426 | Every prefill that passes the junction's block boundary stops there iff the boundary lies in the prefill and so does the junction, or the junction is on the boundary, or another stop is there or in the block before it |
| `MambaSplit.JunctionMissed` | kernels/files/pristine/vllm/v1/core/sched/scheduler.py:421-426 | Otherwise one chunk runs past it: from the block before the boundary to the junction, which ends the prefill, or from the end of the prefill on |
| `MambaSplit.NeverPastJunction` | kernels/files/pristine/vllm/v1/core/sched/scheduler.py:421-426 | A chunk that starts before such a boundary ends there or before |
| `MambaSplit.EveryChunkEndCacheable` | kernels/files/pristine/vllm/v1/core/sched/scheduler.py:389-402 | When a block fits the chunk limit, every chunk end before prefill_end is block-aligned or the active tail boundary |
| `MambaSplit.PrefillFinishes` | kernels/files/pristine/vllm/v1/core/sched/scheduler.py:355-430 | When every step is allowed a block or the rest of the prefill, no chunk is empty and every step gains a block, except one that the active tail boundary may cut short: the prefill is over after one step per block it touches, plus one if that boundary is still ahead |
| `MambaSplit.ReachesNextBlock` | kernels/files/pristine/vllm/v1/core/sched/scheduler.py:390-430 | Such a chunk reaches the next block boundary, the end of the prefill, or the active tail boundary |
| `MambaSplit.StallsExactly` | kernels/files/pristine/vllm/v1/core/sched/scheduler.py:395-402 | A chunk is empty iff the allowance is zero or ends inside the starting block before prefill_end although a block fits the limit |
| `MambaSplit.ProgressWithABlock` | kernels/files/pristine/vllm/v1/core/sched/scheduler.py:395-430 | A block of allowance, or one that reaches prefill_end, always makes progress |
| `MambaSplit.NeverPastStop` | kernels/files/pristine/vllm/v1/core/sched/scheduler.py:404-430 | A chunk never runs past the last cacheable position, the active tail boundary, or the next block boundary when it starts mid-block |
| `MambaSplit.ReachesExactly` | kernels/files/pristine/vllm/v1/core/sched/scheduler.py:404-430 | A chunk inside the prefill reaches a position iff the aligned end does and none of the stops lies strictly between: the next block boundary of a start inside a block, the last cacheable boundary, the active tail boundary, and a junction it would otherwise pass, floored to blocks from the start |
| `MambaSplit.AlignedEndMeans` | kernels/files/pristine/vllm/v1/core/sched/scheduler.py:389-402 | The aligned end is the whole allowance when that reaches prefill_end, the last block boundary in it otherwise, and the whole again when it holds none and no block fits the chunk limit |
| `MambaSplit.PastPrefill` | kernels/files/pristine/vllm/v1/core/sched/scheduler.py:377-379 | Past prefill_end a chunk is its allowance |
| `MambaSplit.LastCacheMeans` | kernels/files/pristine/vllm/v1/core/sched/scheduler.py:385-387 | The last cacheable position is the last block boundary within the tokens, one block earlier with EAGLE |
| `MambaSplit.TailMeans` | kernels/files/pristine/vllm/v1/core/sched/scheduler.py:405-419 | The tail boundary is the last hash boundary within the prompt; it is active iff partial hits are on, the prompt ends off a hash boundary, and the last cacheable position is before it |
| `MambaSplit.ChunkLimitMeans` | kernels/files/pristine/vllm/v1/core/sched/scheduler.py:396-399 | The chunk limit is the lesser of the step's and the long-prefill limit |
| `MambaSplit.EndIsCacheable` | kernels/files/pristine/vllm/v1/core/sched/scheduler.py:389-402 | One chunk's end before prefill_end is cacheable |
| `MambaSplit.JunctionStopAligned` | kernels/files/pristine/vllm/v1/core/sched/scheduler.py:421-426 | A shared-prefix stop that wins is a block boundary, although it is floored relative to the chunk start |
| `MambaSplit.Split` | kernels/files/pristine/vllm/v1/core/sched/scheduler.py:355-430 | Within the allowance, and the allowance itself past prefill_end |
| `MambaSplit.EarliestStop` | kernels/files/pristine/vllm/v1/core/sched/scheduler.py:428-429 | The least stop strictly inside the chunk, else the end |
| `DeferredFrees.DeferredFreeing` | kernels/files/pristine/vllm/v1/core/sched/scheduler.py:2391-2430 | Over every run: no reference is in the pool while a step that may write it is unprocessed; an entry is freed once processed_step_seq reaches its fence + 1; every reference ever introduced is in exactly one place |
| `DeferredFrees.DelayHappens` | kernels/files/pristine/vllm/v1/core/sched/scheduler.py:2417-2429 | The extra step of delay does occur: a reachable state holds an entry whose own fence is already processed |
| `DeferredFrees.DrainStopsAtFirstPending` | kernels/files/pristine/vllm/v1/core/sched/scheduler.py:2424-2430 | A drain frees exactly the entries before the first pending fence and keeps the rest in order |
| `DeferredFrees.NextKeeps` | kernels/files/pristine/vllm/v1/core/sched/scheduler.py:2391-2415 | Every action keeps the near-order of fences (fence_i <= fence_j + 1) and moves references without losing or duplicating one |
| `DeferredFrees.RunKeeps` | kernels/files/pristine/vllm/v1/core/sched/scheduler.py:2391-2430 | Both hold over every run |
| `DeferredFrees.InvImpliesSafe` | kernels/files/pristine/vllm/v1/core/sched/scheduler.py:1719-1723 | The invariant excludes an early return to the pool and bounds the delay |
| `DeferredFrees.DrainConserves` | kernels/files/pristine/vllm/v1/core/sched/scheduler.py:2417-2430 | A drain only moves references from the entries to the pool |
| `DeferredFrees.RetentionIsDeferred` | kernels/files/pristine/vllm/v1/core/sched/scheduler.py:1214-1222 | A copy-on-write retention always gets a fence that is still pending |
| `DeferredFrees.FreedAtOnceExactly` | kernels/files/pristine/vllm/v1/core/sched/scheduler.py:2391-2404 | Over every run, by the history: freeing a request returns all its blocks at once iff the last step that scheduled it is processed; otherwise they wait, as one entry, behind the last step scheduled so far |
| `DeferredFrees.CountersMean` | kernels/files/pristine/vllm/v1/core/sched/scheduler.py:1279-1285 | The sequence counters are the numbers of non-empty steps scheduled and processed, and a request's last step the last that scheduled it |
| `DeferredFrees.FreedWhenWritesAreDone` | kernels/files/pristine/vllm/v1/core/sched/scheduler.py:2395-2401 | At once also if all steps that may write its blocks are processed, provided its last step could write one |
| `DeferredFrees.WaitsUnwritten` | kernels/files/pristine/vllm/v1/core/sched/scheduler.py:2395-2401 | Without that proviso they may wait: a request scheduled while it holds nothing, then given a block, then freed |
| `DeferredFrees.ComesBack` | kernels/files/pristine/vllm/v1/core/sched/scheduler.py:2417-2430 | A waiting block returns once its fence is processed, unless an entry ahead of it has a later fence, and in any case with the step after |
| `DeferredFrees.FreedComesBack` | kernels/files/pristine/vllm/v1/core/sched/scheduler.py:2391-2430 | So do the blocks of a freed request, whatever happens after the free |
| `DeferredFrees.WritesMean` | kernels/files/pristine/vllm/v1/core/sched/scheduler.py:1214-1222 | A step may write what its requests hold and what was retained for it |
| `DeferredFrees.FreeKeeps` | kernels/files/pristine/vllm/v1/core/sched/scheduler.py:2391-2404 | Freeing a request keeps every reference an unprocessed step may write out of the pool |
| `DeferredFrees.CompleteKeeps` | kernels/files/pristine/vllm/v1/core/sched/scheduler.py:1721-1723 | Processing a step keeps the invariant |
| `DeferredFrees.BlockFreeing.DrainDeferredFrees` | kernels/files/pristine/vllm/v1/core/sched/scheduler.py:2417-2430 | The loop computes Drain |
| `DeferredFrees.BlockFreeing.FreeRequestBlocks` | kernels/files/pristine/vllm/v1/core/sched/scheduler.py:2391-2404 | Computes FreeRequest on the whole state |
| `DeferredFrees.BlockFreeing.FreeCowRetainedBlocks` | kernels/files/pristine/vllm/v1/core/sched/scheduler.py:2406-2415 | Computes FreeRetained on the whole state |
| `DeferredFrees.BlockFreeing.EndOfSchedule` | kernels/files/pristine/vllm/v1/core/sched/scheduler.py:1279-1285 | Retentions are fenced before the sequence number of a non-empty step advances |
| `DeferredFrees.BlockFreeing.StepProcessed` | kernels/files/pristine/vllm/v1/core/sched/scheduler.py:1721-1723 | Processing computes Process |
| `InvalidBlocks.FirstHolderRecomputes` | kernels/files/pristine/vllm/v1/core/sched/scheduler.py:2883-2892 | The first request that holds an invalid block in its computed range is cut back to it or further |
| `InvalidBlocks.KeptBlocksAreRecomputed` | kernels/files/pristine/vllm/v1/core/sched/scheduler.py:2874-2892 | Every invalid block in a kept prefix lies at or beyond the new C of an earlier request that holds it |
| `InvalidBlocks.NeverGrows` | kernels/files/pristine/vllm/v1/core/sched/scheduler.py:2891-2912 | C never grows; an affected request keeps at most what was computed before this step, any other keeps C exactly |
| `InvalidBlocks.MarkedBeforeMeans` | kernels/files/pristine/vllm/v1/core/sched/scheduler.py:2849-2852 | The marks are exactly the invalid blocks in the computed range of an earlier request |
| `InvalidBlocks.RecoveryMeans` | kernels/files/pristine/vllm/v1/core/sched/scheduler.py:2883-2912 | A request with a newly marked block keeps exactly the blocks before the first, one with marked blocks alone loses this step's tokens, any other nothing; the reported tokens are what is lost, but for this step's when blocks are |
| `InvalidBlocks.DownstreamMeans` | kernels/files/pristine/vllm/v1/core/sched/scheduler.py:2896-2900 | Evicted is exactly what lies at or behind a newly marked block |
| `InvalidBlocks.ScannedMeans` | kernels/files/pristine/vllm/v1/core/sched/scheduler.py:2856-2867 | The scanned blocks are those that hold a token computed before this step |
| `InvalidBlocks.TotalMeans` | kernels/files/pristine/vllm/v1/core/sched/scheduler.py:2846-2916 | The total grows request by request by what each loses |
| `InvalidBlocks.EvictedMeans` | kernels/files/pristine/vllm/v1/core/sched/scheduler.py:2896-2900 | The set to evict is the union of these |
| `InvalidBlocks.LoadedRequest.Scan` | kernels/files/pristine/vllm/v1/core/sched/scheduler.py:2853-2914 | One turn of the outer loop yields the specified C, affected count, marks and evictions |
| `InvalidBlocks.ScanBlocks` | kernels/files/pristine/vllm/v1/core/sched/scheduler.py:2868-2900 | The inner loop finds the first block this request newly marks, and marks all its invalid blocks |
| `InvalidBlocks.UpdateRequestsWithInvalidBlocks` | kernels/files/pristine/vllm/v1/core/sched/scheduler.py:2846-2916 | The nested loop recovers every request as specified, with exact token total and eviction set |
| `InvalidBlocks.ScanNth` | kernels/files/pristine/vllm/v1/core/sched/scheduler.py:2853-2914 | One turn extends the recovered prefix and touches no other request |
| `DraftScatter.SplitRefinesImmediate` | kernels/pp_draft_event_patch.py:148-231 | Over every run of consume, free, reuse, early return, dummy and real forwards, the split machine feeds every forward the input_ids of the immediate one, and readers of live rows see the same drafts at the end |
| `DraftArrival.ImmediateArrives` | kernels/files/pristine/vllm/v1/worker/gpu/model_runner.py:33-57 | Upstream, consuming a slot writes entry i over its row iff the row's generation is still the entry's and the entry is not masked; every other row stays as it is |
| `DraftArrival.FlushArrives` | kernels/pp_draft_event_patch.py:158-176 | In the split machine the flush does that, judged by the generations at its own time |
| `DraftArrival.ConsumedArrives` | kernels/pp_draft_event_patch.py:192-229 | So a slot that was consumed, with rows freed and given out since, is written at the next flush to exactly the rows that are still meant |
| `DraftArrival.CombinedAtOwner` | kernels/files/pristine/vllm/v1/worker/gpu/model_runner.py:1411-1420 | At its own positions a request past its prefill is fed its last sampled token, then its draft row |
| `DraftArrival.CombinedNowhere` | kernels/files/pristine/vllm/v1/worker/gpu/model_runner.py:1411-1420 | Positions of no such request keep what the preparation put there |
| `DraftArrival.ForwardCombines` | kernels/pp_draft_event_patch.py:177-190 | A forward reads input_ids combined from the rows as the flush leaves them |
| `DraftArrival.DraftsReachInput` | kernels/pp_draft_event_patch.py:158-229 | Consume a slot, free and give out rows, run a batch: a request whose entry arrives is fed that entry's drafts |
| `DraftScatter.StartsAlike` | kernels/pp_draft_event_patch.py:192-216 | With nothing pending and live rows in range the two machines start out alike, and a new runner is such a state |
| `DraftScatter.StepRefines` | kernels/pp_draft_event_patch.py:192-231 | Every single step preserves the refinement; nothing is pending after a forward |
| `DraftScatter.FlushMappingIsMapping` | kernels/pp_draft_event_patch.py:166-174 | All branches of the mapping choice (none, some, or exactly the excluded freed) give the mapping upstream would compute now |
| `DraftScatter.FlushedRows` | kernels/pp_draft_event_patch.py:158-176 | After a flush every row is what a reader would have seen before it |
| `DraftScatter.CombineAgain` | kernels/pp_draft_event_patch.py:177-190 | The second call overwrites every slot the first one wrote |
| `DraftScatter.CombineAgrees` | kernels/files/pristine/vllm/v1/worker/gpu/model_runner.py:1411-1420 | input_ids depend on the batch's own draft rows only, and not at all when nothing is verified |
| `DraftScatter.ConsumeRefines` | kernels/pp_draft_event_patch.py:192-216 | Recording a slot, after flushing what an early return left, refines scattering it at once |
| `DraftScatter.ForwardRefines` | kernels/pp_draft_event_patch.py:227-229 | The late half before the forward makes up for the early reads of input_ids |
| `DraftScatter.FreeRefines` | kernels/files/pristine/vllm/v1/worker/gpu/model_runner.py:1056-1072 | Freeing a row changes no live row a reader sees |
| `DraftScatter.AddRefines` | kernels/pp_draft_event_patch.py:166-174 | A row reused by a new request is not overwritten by the pending slot |
| `DraftScatter.Source` | kernels/files/pristine/vllm/v1/worker/gpu/model_runner.py:50-57 | The last slot entry that writes a row, if any does |
| `DraftScatter.Scatter` | kernels/files/pristine/vllm/v1/worker/gpu/model_runner.py:33-57 | Rows not addressed are untouched, negative indices skipped; of an addressed row the first K entries are the drafts, the others stay |
| `DraftScatter.Combine` | kernels/files/pristine/vllm/v1/worker/gpu/model_runner.py:1411-1420 | Each position is written by the last request that covers it or left alone |
| `DraftScatter.DraftRelay.ScatterDraftTokens` | kernels/pp_draft_event_patch.py:148-156 | The row loop computes Scatter in place |
| `DraftScatter.DraftRelay.CombineSampledAndDraftTokens` | kernels/pp_draft_event_patch.py:177-190 | The in-place loop computes Combine |
| `DraftScatter.DraftRelay.FlushPending` | kernels/pp_draft_event_patch.py:158-190 | Computes Flush on the whole runner state |
| `DraftScatter.DraftRelay.UpdatePpDecodeRequests` | kernels/pp_draft_event_patch.py:192-216 | Computes the split machine's consume |
| `DraftScatter.DraftRelay.OnReqIdxFreed` | kernels/files/pristine/vllm/v1/worker/gpu/model_runner.py:1056-1072 | Computes the split machine's free |
| `DraftScatter.DraftRelay.AddRequest` | kernels/files/pristine/vllm/v1/worker/gpu/model_runner.py:1593-1597 | Computes the split machine's row reuse |
| `DraftScatter.DraftRelay.PrepareForward` | kernels/pp_draft_event_patch.py:221-229 | Preparation plus late half computes the split machine's forward |
| `SpecRoll.ChooseMaximises` | kernels/spec_roll.py:84-110 | No choice iff the window is thin or the first depth unjudged; otherwise the choice is (up to the KMIN floor) a judged depth within 1e-12 of the best expected throughput of all judged depths and strictly better than every shallower one |
| `SpecRoll.ScorableExactly` | kernels/spec_roll.py:96-101 | Stopping at the first thin depth loses none: the scored depths are exactly those with MIN_OBS observations of their own |
| `SpecRoll.ObservedAntitone` | kernels/spec_roll.py:98 | Deeper positions are never observed more often |
| `SpecRoll.BestIsBest` | kernels/spec_roll.py:104-109 | The running best is within 1e-12 of every score seen and strictly above every shallower one |
| `SpecRoll.ChooseDepth` | kernels/spec_roll.py:94-110 | The two loops compute Choose |
| `SpecRoll.PositionRates` | kernels/spec_roll.py:96-101 | The first loop lists the acceptance rate of every scorable depth |
| `SpecRoll.StepMsMeans` | kernels/spec_roll.py:113-118 | Within the table a step takes the table's time; beyond it every further token takes as long as the last one of the table, 2 ms if it has one entry |
| `SpecRoll.NondecreasingIsPriced` | kernels/spec_roll.py:113-118 | A positive table that never falls gives positive, never falling times also beyond its end |
| `SpecRoll.BreakEven` | kernels/spec_roll.py:121-126 | P_j > tau_j iff score(j) > score(j-1), except exactly where the step time falls and P_j = 0 |
| `SpecRoll.GreedyAgrees` | kernels/spec_roll.py:84-93 | For non-decreasing convex times and non-increasing rates the break-even walk stops at a maximum; the scored choice is never deeper, within 1e-12 of it, and equal when every step of the walk gains more than 1e-12 |
| `SpecRoll.OnceWorseAlwaysWorse` | kernels/spec_roll.py:121-126 | Under that shape a depth that does not pay is followed by none that does |
| `SpecRoll.DeepestIsNotChosen` | kernels/spec_roll.py:16-17 | A table and a window on which the deepest position with P_j >= tau_j is 3 and the choice 1 |
| `SpecRoll.WalkIsNotChosen` | kernels/spec_roll.py:84-93 | A table and a window on which the walk stops at 1 and the choice is 3 |
| `SpecRoll.FreeRejection` | kernels/spec_roll.py:121-126 | The exceptional case of the break-even: a cheaper deeper position that is never accepted improves the score without beating its break-even |
| `RollState.RollingRequest.RecordStep` | kernels/spec_roll.py:70-81 | Appends, trims to the window and counts, or leaves everything alone |
| `RollState.RollingRequest.NextBudget` | kernels/spec_roll.py:129-165 | Computes CapFor: the new kept length and the budget |
| `RollState.RollingRequest.StorePrefix` | kernels/gate_async_patch.py:52-54 | Stores the gate's verdict and nothing else |
| `RollState.GateMeans` | kernels/spec_roll.py:135-137 | A gate that kept p drafts lowers a ceiling above p to p, but not below KMIN, and leaves any other |
| `RollState.NoGateMeans` | kernels/spec_roll.py:135-137 | Without a verdict the ceiling stays |
| `RollState.CeilingMeans` | kernels/spec_roll.py:131-134 | The ceiling is k_max, lowered to a smaller hint and to nothing by a negative one |
| `RollRuns.HistoryIsWindow` | kernels/spec_roll.py:70-81 | Over every run, with any table that gives positive times at the depths asked for, the history is the last WINDOW recorded pairs and n their number |
| `RollRuns.HistoryIsPrefixed` | kernels/spec_roll.py:70-81 | If every arriving pair has 0 <= accepted <= drafted, so has every pair of the history, with drafted > 0 |
| `RollRuns.BudgetBounds` | kernels/spec_roll.py:129-165 | Over every run with fixed k_max and hint and any gate verdicts: 0 <= budget <= gated ceiling <= min(k_max, hint), at most the gate's prefix (or KMIN), at least min(KMIN, ceiling) with the rule on, exactly the gated ceiling with it off |
| `RollRuns.FirstBudget` | kernels/spec_roll.py:57-61 | A request's first budget is its ceiling, or the configured start raised to KMIN and cut to the ceiling |
| `RollRuns.SteadyBudgetIsBest` | kernels/spec_roll.py:143-165 | With a judged window, no jump and no probe, the budget is a judged depth with the best expected throughput, lifted to the floor if need be |
| `RollRuns.UndercutsExactly` | kernels/spec_roll.py:158-165 | With varying k_max a budget is below min(KMIN, cap) iff it probes one above a kept length two or more short of it, with nothing judged and no stretch to ride |
| `RollRuns.FloorExactly` | kernels/spec_roll.py:158-165 | No run of any request undercuts the floor iff KMIN <= 2, probing is off, or the first probe and the window both reach MIN_OBS (or the table has no positive time at depth 3) |
| `RollRuns.FloorOnRisingTables` | kernels/spec_roll.py:158-165 | On a table that never falls every run is priced and no exception remains |
| `RollRuns.FloorSafeNecessary` | kernels/spec_roll.py:158-165 | Otherwise a concrete run does: k_max 1 until the first probe, then 3 |
| `RollRuns.JumpForcesCeiling` | kernels/spec_roll.py:147-157 | In every run whose last JUMP_N recorded steps accepted all they drafted, the next budget and the kept length are the gated ceiling, if JUMP_N <= WINDOW |
| `RollRuns.JumpExactly` | kernels/spec_roll.py:147-157 | For a positive JUMP_N that holds on every run iff JUMP_N <= WINDOW |
| `RollRuns.StretchUnseen` | kernels/spec_roll.py:147-157 | For JUMP_N > WINDOW the run that fails: the floor accepted whole JUMP_N times, and the budget stays below the ceiling |
| `RollRuns.RidingExactly` | kernels/spec_roll.py:155 | The guard of the jump holds after a run iff its last JUMP_N recorded steps accepted everything and JUMP_N <= WINDOW |
| `RollRuns.RejectionForcesFloor` | kernels/spec_roll.py:129-165 | With a table that never falls and WINDOW >= MIN_OBS, in every run that recorded MIN_OBS steps and whose last WINDOW ones accepted nothing, the kept length is min(KMIN, cap) and the budget that or its probe one deeper |
| `RollRuns.UnjudgedStays` | kernels/spec_roll.py:94-95 | With WINDOW < MIN_OBS nothing is ever judged: apart from jumps no run changes the length it started with |
| `RollFlights.FlyIsRun` | kernels/apply_spec_k.py:412-434 | The flight that also keeps the outstanding budgets has the rule's state of the plain run |
| `RollProbes.NeverClimbs` | kernels/spec_roll.py:158-165 | With at most `lag` budgets asked for ahead of their outputs: once the flight is quiet at k and no window holds MIN_OBS steps answered within `lag` steps of a probe, no run without a jump ever raises the kept length above k or has more than k+1 drafts outstanding |
| `RollProbes.NearExactly` | kernels/spec_roll.py:162-163 | Such a step is one with a probing step among itself and the lag - 1 steps before it |
| `RollProbes.SittingIsQuiet` | kernels/spec_roll.py:158-165 | A whole window of outputs recorded while sitting at k leaves the flight quiet at k, at every age of the request and every lag |
| `RollProbes.ProbeSizing` | kernels/spec_roll.py:158-165 | Then depth k+1 has been observed at most as often as the window has steps near a probe, nothing deeper at all, and it is scorable iff its observations reach MIN_OBS |
| `RollProbes.FullSizing` | kernels/spec_roll.py:158-165 | When every budget is drafted in full: exactly as often as the window answers probes, whatever the order of budgets and outputs |
| `RollProbes.AlternatingSizing` | kernels/spec_roll.py:158-165 | When budgets and outputs also alternate: exactly as often as the window has probing steps |
| `RollProbes.AlternatingScorable` | kernels/spec_roll.py:158-165 | Then, with one period p in force, it is scorable iff the window holds MIN_OBS multiples of p: always if floor(WINDOW/p) reaches it, never if ceil(WINDOW/p) does not |
| `RollProbes.MultiplesBounds` | kernels/spec_roll.py:162-163 | Any window holds between floor and ceil of WINDOW/p multiples, wherever it starts |
| `RollWindows.ResiduesBound` | kernels/spec_roll.py:162-163 | A window holds at most floor(W/p)*min(lag,p) + min(lag, W mod p) steps less than `lag` past a multiple of p, and exactly as many when it begins at one |
| `RollWindows.SettledSparseExactly` | kernels/spec_roll.py:160-163 | From PROBE_SETTLE on, no window holds MIN_OBS steps near a probe iff that number at the decayed period is below MIN_OBS or probing is off |
| `RollWindows.RareIsSparse` | kernels/spec_roll.py:160-163 | If it is so at the base period already, no window of any age holds them |
| `RollWindows.DocumentedSizes` | kernels/spec_roll.py:18-19 | With MIN_OBS 4, settling at 48 and decay 4: when budgets and outputs alternate, 16/6 and 24/8 never have enough probes in a window and 32/6 only while young; with two budgets outstanding all three have them while young, settled only 32/6; with four also 16/6 and 24/8 |
| `RollClimbs.ClimbsExactly` | kernels/spec_roll.py:158-165 | On a table where the depth past the floor pays: some run raises a quiet length on probes alone iff some window holds MIN_OBS steps near a probe, for every lag and every number of budgets kept ahead |
| `RollClimbs.SettledClimbsExactly` | kernels/spec_roll.py:160-163 | For a settled request: iff the most steps near a probe a window can hold at the decayed period reaches MIN_OBS, with probing on |
| `RollClimbs.ProbesClimb` | kernels/spec_roll.py:158-165 | The run that climbs: sit at the floor, have everything rejected but the probes, and ask again |
| `RollClimbs.DefaultsClimbAtTwo` | kernels/spec_roll.py:30-53 | At the defaults no alternating run climbs on probes alone; with two budgets outstanding, one of them kept ahead, a run does |
| `RollClimbs.JudgedProbeWins` | kernels/spec_roll.py:94-110 | Once MIN_OBS accepted probes are in the window, the probed depth is the choice |
| `RollClimbs.DefaultsAreWorth` | kernels/spec_roll.py:30-41 | The default table with the default floor is one where the depth past the floor pays |
| `StaticBudget.StaticDraftBudget.constructor` | kernels/files/vllm/v1/worker/gpu/spec_decode/static_budget.py:18-23 | Starts with nothing remembered |
| `StaticBudget.StaticDraftBudget.GetNumTokens` | kernels/files/vllm/v1/worker/gpu/spec_decode/static_budget.py:25-45 | Returns the count minus every cut, remembers exactly the cut requests with what they keep, and is pending iff something was cut |
| `StaticBudget.StaticDraftBudget.Compact` | kernels/files/vllm/v1/worker/gpu/spec_decode/static_budget.py:47-61 | Per request exactly the unverified drafts go; the logits offsets grow by kept drafts plus bonus and end at the reported total |
| `StaticBudget.StaticDraftBudget.TwoPasses` | kernels/apply_spec_k.py:366-384 | Both passes together, in either branch of `pending`, cut each request to its cap whatever the batch order |
| `StaticBudget.StaticDraftBudget.PrepareInputs` | kernels/files/pristine/vllm/v1/worker/gpu/model_runner.py:1353-1363 | The padded query offsets never step down and end at the token count computed in scheduler order |
| `StaticBudget.FillOffsets` | kernels/files/pristine/vllm/v1/worker/gpu/model_runner.py:1353-1363 | Cumulative sum, then padding |
| `StaticBudget.AnyOrderAgrees` | kernels/files/vllm/v1/worker/gpu/spec_decode/static_budget.py:47-61 | Any rearrangement of the batch leaves the same number of tokens |
| `StaticBudget.RemainingIsDifference` | kernels/files/vllm/v1/worker/gpu/spec_decode/static_budget.py:25-45 | What is left, request by request, is the count minus the total cut |
| `StaticBudget.OffsetsMeet` | kernels/files/pristine/vllm/v1/worker/gpu/model_runner.py:1353-1363 | Offsets summed in batch order meet the count of the scheduler-order pass |
| `StaticBudget.VerifiedMeans` | kernels/files/vllm/v1/worker/gpu/spec_decode/static_budget.py:30-41 | A request with a row keeps as many drafts as its cap allows, any other keeps them all |
| `StaticBudget.LogitsTotal` | kernels/files/vllm/v1/worker/gpu/spec_decode/static_budget.py:47-61 | The logits offsets count the bonus tokens and the uncut drafts up to each request |
| `TrimmedRuns.TrimmingIsInvisible` | kernels/files/vllm/v1/worker/gpu/spec_decode/static_budget.py:4-8 | Every run in which the workers trim their steps, each by any amount, is in lockstep with a run without trimming: the scheduler is in the same state and hands out the same blocks at every step; only outputs that are dropped may differ |
| `TrimmedRuns.TrimmedExactlyOnce` | kernels/files/vllm/v1/worker/gpu/spec_decode/static_budget.py:4-8 | So over every run with trimming the client still gets every token once and in order |
| `TrimmedRuns.TrimmedDelivery` | kernels/files/vllm/v1/worker/gpu/spec_decode/static_budget.py:47-61 | An output of the trimmed step that is not dropped is one the full step could have produced and leaves the same worker row, so unverified drafts count as rejected |
| `TrimmedRuns.StepAlike` | kernels/files/vllm/v1/worker/gpu/spec_decode/static_budget.py:4-8 | One action keeps the two systems alike; rows that differ after dropped output are recreated before they matter |
| `TrimmedRuns.LockstepMeans` | kernels/files/vllm/v1/worker/gpu/spec_decode/static_budget.py:4-8 | Systems in lockstep end with the same request, the same steps in flight and the same output |
| `ConfidenceGate.PrefixCountIsLeadingRun` | kernels/files/vllm/v1/worker/gpu/spec_decode/confidence_gate.py:69-71 | The cumulative-product sum is the longest leading run, and no other number is |
| `ConfidenceGate.TwinsAgreeExactly` | kernels/files/vllm/v1/worker/gpu/spec_decode/confidence_gate.py:63-89 | Tensor form and array twin agree iff the gate is on or every confidence reaches the threshold; always for confidences >= 0 |
| `ConfidenceGate.FlooredFormsAgree` | kernels/gate_async_patch.py:38-42 | The floored array form and the device form agree for every row, threshold and floor |
| `ConfidenceGate.FlooredGateMeaning` | kernels/dflash2_conf_patch.py:50-55 | Off: the whole block. On: at least min(floor, k), and beyond that exactly the confident run |
| `ConfidenceGate.StricterKeepsLess` | kernels/dflash2_conf_patch.py:50-55 | Raising the threshold never keeps more |
| `ConfidenceGate.TruncateDraftLists` | kernels/files/vllm/v1/worker/gpu/spec_decode/confidence_gate.py:92-100 | The append loop cuts each list to its count |
| `ConfidenceGate.GateDraftLists` | kernels/files/vllm/v1/worker/gpu/spec_decode/confidence_gate.py:103-117 | Each row is cut by the gate and the cap that are present; with neither the lists are returned as they are |
| `ConfidenceGate.RowIsPrefix` | kernels/files/vllm/v1/worker/gpu/spec_decode/confidence_gate.py:103-117 | Each row is its list's prefix of length min(len, gate, cap) |
| `ConfidenceGate.RowAntitone` | kernels/files/vllm/v1/worker/gpu/spec_decode/confidence_gate.py:103-117 | A stricter threshold yields a prefix of what a weaker one yields |
| `KdaStrided.KernelVisitsElement` | kernels/kda_strided_patch.py:51-107 | For q, k, v and headwise beta, any sizes and strides: the pointer of token b*T+t, head h, dim c addresses exactly that element of whatever layout was handed over |
| `KdaStrided.KernelVisitsHead` | kernels/kda_strided_patch.py:64-73 | The same for beta with one value per head |
| `KdaStrided.KeepLayout` | kernels/kda_strided_patch.py:115-127 | The loop keeps x in place iff the layout is one batch row of non-overlapping tokens with dense payload (size-1 axes free) |
| `KdaStrided.StrideFlagIsUnambiguous` | kernels/kda_strided_patch.py:130-131 | Token stride 0 marks contiguous tensors and no others |
| `KdaStrided.OnlyDensePayloadsStay` | kernels/kda_strided_patch.py:120-124 | A payload that is not dense holds an element that row-major pointer arithmetic inside a token misses |
| `KdaStrided.StaysExactly` | kernels/kda_strided_patch.py:115-135 | With the switch on a non-empty tensor stays in place iff it is contiguous or holds one batch row whose elements lie at their row-major offset behind non-overlapping tokens; with it off it is made contiguous |
| `KdaStrided.TokenLoop` | kernels/kda_strided_patch.py:84-106 | The pointers advanced token by token are those of the tokens |
| `KdaStrided.DenseAddress` | kernels/kda_strided_patch.py:118-119 | A row-major layout addresses row-major positions, size-1 axes ignored |
| `KdaStrided.PayloadAddress` | kernels/kda_strided_patch.py:120-127 | One token of an accepted layout is its stride plus the row-major offset |
| `MlaSplit.FillSplits` | kernels/mla_split_patch.py:32-41 | The count is the least of three powers of two: the smallest that covers the processors, next_pow2(max(1, topk // floor)), and the largest dividing topk; it always divides topk |
| `MlaSplit.Grow` | kernels/mla_split_patch.py:36-38 | The doubling loop stops at the lesser of the first two |
| `MlaSplit.Shrink` | kernels/mla_split_patch.py:39-41 | The halving loop stops at the lesser of its start and the two-part of topk |
| `MlaSplit.FillMeaning` | kernels/mla_split_patch.py:12-13 | Every doubling was needed, and stopping short of covering the processors means the keys do not split further or the work floor is met |
| `MlaSplit.TwoPartExactly` | kernels/mla_split_patch.py:39-40 | A power of two divides topk iff it is at most the two-part |
| `MlaSplit.CoveringIsLeast` | kernels/mla_split_patch.py:36-38 | A power of two covers the processors iff it is at least Covering |
| `MlaSplit.ForcedSplits` | kernels/mla_split_patch.py:26-31 | The forced mode returns the first of force, force/2, force/4, ... that divides topk, ending at 1 |

## Left out

- The padded branch for new decodes (kernels/files/pristine/vllm/v1/core/sched/scheduler.py:912-928), which has different
  bounds on the computed tokens.
- In the waiting loop: asynchronous KV loads and blocked statuses, LoRA limits, encoder inputs, chunked prefill switched
  off, and the streaming sessions that count as running.
- The order inside the request queues, which are not part of the repository: under PRIORITY a preempted request is put at
  the head although a priority queue would place it by urgency, and equal heads are told apart by request id. The results
  speak of who is in a queue, and of order only under FCFS.
- The update after scheduling is applied to an admitted request when it is admitted; nothing reads its counters in between.
- Encoder budgets, grammars, pooling, routed experts, statistics, events, streaming sessions and KV or EC connectors.
- Block pool internals, prefix cache lookup and eviction order; blocks are references that are owned, deferred or free.
- Scheduling.Scheduler.AllocateSlots: succeeds or fails nondeterministically, because the cache manager is not part of
  the repository.
- Scheduling.Scheduler.NextDraftBudget: any budget, so the scheduler's results hold for every draft-length rule;
  the rule itself is in RollState.
- Progress over many steps of requests that the decode cap, the cadence, the deferral of prefills or a lack of blocks keep
  passing over; each single step says why it passed over whom.
- SchedulePlan.OfferedExactly: exact without a preemption of scheduled requests, so always under FCFS; under PRIORITY a
  request is offered at least what is left less what later victims gave back (Turns.FairEvict).
- Scheduling.Scheduler.LookUpCache: any hit that leaves a token to compute, because the prefix cache is not part of the
  repository.
- AsyncRequest.Request.RollBackRejected: states the guarded subtraction; that neither guard matters is in
  RequestSafety.PlaceholdersSuffice.
- MambaSplit.PrefillFinishes: with allowances below a block that do not reach the end of the prefill, progress is not
  promised; StallsExactly says when it fails.
- RollClimbs.ClimbsExactly: that probes suffice is claimed for tables on which the depth past the floor pays, and with the
  jump rule on only when JUMP_N and PROBE both exceed the lag, since otherwise accepted probes can themselves be a jump.
  That they never suffice with too few of them is RollProbes.NeverClimbs, without these conditions.
- Scheduling.Scheduler.UpdateFromOutput: the text, log probabilities and statistics of an output, requests whose blocks
  failed to load, streaming sessions; `finish_requests` from outside is the machine's Abort, without the queues.
- RollRuns.RejectionForcesFloor: for tables that never fall, since a falling one may favour a depth that was never accepted.
- DeferredFrees.BlockFreeing.FreeRequestBlocks: the deferring mode only; without it blocks are returned at once.
- InvalidBlocks.UpdateRequestsWithInvalidBlocks: a single KV cache group; what happens to affected requests afterwards.
- CUDA streams and events, graph capture, process groups and Triton execution; only their ordering is kept.
- The early return in the sharded-parallel order of patch 0022 (`PCP: upstream order`), which is the immediate machine.
- 32-bit counters and offsets are unbounded integers, floating-point rounding is not modelled.
- Step tables whose extrapolation reaches zero or below, and malformed environment settings.
- Softmax confidences, tokens and KV contents; the parsers of request arguments.
- The part of the split heuristic in upstream mode that is not in the patch.
- Patch-script plumbing, debug patches, quantization, benchmarks and the iteration-3 draft rule that the stack overwrites.
