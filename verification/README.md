# Verified model of the durable Flow engine

This project models the parts of base-agent whose correctness rests on protocols rather than on one
function: the Flow aggregate with its optimistic commits, execution leases and event log; the
side-effect ledger and the tool recorder; the durable work queue; execution plans, their cycle check
and replanning; the sequential strategy with its budgets; the model-tool loop with suspended tool
batches; and the crash journal of the Raft worker. `dafny verify dfyconfig.toml` checks everything.

Most of this code changes state through `model_copy`, which never runs the pydantic validators again,
and the repository accepts any replacement with the right revision. That every reachable state is
valid, that committed snapshots form one legal history, that an unsafe tool is transported at most
once, are properties of the protocols as wholes. They are stated here over every run and every
interleaving.

## Files

| file | what it models |
|---|---|
| `Common.dfy` | ids, time, options, two counting lemmas |
| `Lifecycle.dfy` | `FlowRunState`, `AgentInvocation`, their validators and transitions |
| `FlowEvents.dfy` | the events written with each transition, and replaying them |
| `Repository.dfy` | `InMemoryFlowRepository` and `FlowLifecycle`, as classes |
| `FlowSystem.dfy` | any number of clients and lease holders interleaved on one run |
| `SideEffects.dfy` | the ledger of side effects |
| `ToolEffects.dfy` | the recorder, alone under interference and as a system of many |
| `PlanGraph.dfy`, `Plan.dfy` | dependency graphs, the depth-first check, step transitions, progress |
| `Replanning.dfy` | the merge of new steps into a plan under way |
| `Work.dfy`, `WorkSystem.dfy` | the work queue, and many workers and operators on it |
| `Budget.dfy`, `Sequential.dfy` | budget checks and the sequential strategy |
| `SequentialRaces.dfy` | the same strategy among other writers of its run |
| `Supervision.dfy` | the default supervisor, and what it makes of a batch of tool calls |
| `ToolLoop.dfy` | the run loop and tool batches that are suspended and resumed |
| `RaftJournal.dfy` | spool and journal of the Raft worker under crashes |

## Assumptions

- UUIDs are fresh. An invocation id belongs to one request, so it determines the sequence number the
  request carries (`Authentic`); lease tokens, delivery tokens, effect ids and command ids are new
  when they are drawn. Where the code relies on this without checking it, a lemma says exactly what
  goes wrong otherwise (`BeginIsValidIffFresh`, `EnqueueKeepsItemsIffFresh`).
- The clock of a Flow Run never goes back. Nothing is assumed of the clock of the work queue. A call
  reads the clock at the moment it takes effect.
- A block under the lock of an in-memory store is one atomic step.
- Agent results have passed their own validator before they are settled.
- SHA-256 digests are injective, so an operation stands for its digests.

## Findings

Each is a property that one would expect and that the code does not have, with a lemma or method at an
input and a statement, over all inputs, of when the property does hold.

- `begin_invocation` accepts an invocation id that the run has used before and then returns a state
  that its validator would refuse (`ReusedInvocationIdIsAccepted`). It does so exactly when the id is
  not new (`BeginIsValidIffFresh`).
- Ending a run drops the model and tool call counts of the invocation it ends (`TerminationLosesCounts`);
  the sums survive exactly when that invocation had reported none (`TerminateKeepsCountsIff`).
- `enqueue` overwrites another item (`EnqueueOverwrites`), exactly when the idempotency key is new and the
  command id is not (`EnqueueKeepsItemsIffFresh`).
- A merge without new steps completes a plan even if one of its steps has failed or was cancelled
  (`FailedStepInCompletedPlan`); apart from that a merged plan that says completed has settled steps only
  (`MergeCompletesHonestlyIff`). The planning strategy merges only after `complete_step`, and
  `plan.fail` ends its run, so it takes a plan that the caller supplies with such a step in it.
- `FlowConsumption` refuses negative counts. When the counts reported by all agents of a run sum up to
  less than zero, the budget check raises and leaves the run active (`NegativeSumRaises`); one negative
  report within a sum that is not negative passes (`NegativeReportAlonePasses`). When a call on the
  strategy raises is stated exactly (`Escapes`).
- A tool batch suspended in the last step that is allowed is never continued: the step limit is checked
  before the batch is looked at, so an approved call and all remaining ones are dropped, although the
  batch would have been finished without the interruption (`DroppedAtTheStepLimit`). A suspended batch is
  continued exactly when the step limit is not reached and nobody has cancelled (`Execute`).
- The answer of a human is not shown to the no-progress detector, so failures counted before it still
  count after it, and its own failure does not. For any counters and answer the interrupted and the
  uninterrupted batch agree, under all limits and on all remaining calls, exactly when the answer is a
  success and no failure had been counted (`ResumingAgreesIff`); otherwise `HumanAnswerIsNotCounted` gives
  limits and calls on which they differ.
- A confirmation is looked up by call id, and a call that finds one is neither counted nor shown to the
  supervisor. A call to a tool that needs no approval runs past the tool call limit if it carries the id of
  an approved call of its batch (`SharedIdEscapesTheLimit`); a tool that needs approval denies it. The
  remaining calls of a batch are counted exactly when none carries the id of the approved one
  (`RemainingCallsAreCountedIff`).
- The Raft journal can keep entries whose spool is gone: a save fails after the process has completed the
  last message in memory, the process goes on (`LaggingArises`), and `run_once` finds nothing left to do.
  `RunOnce` says exactly when; a crash alone never leads there (`CrashesAloneNeverLag`).
- A message that the Raft worker has completed can be forgotten before its spool is cleared
  (`CompletionIsForgotten`), exactly when more messages are completed than the limit of remembered
  completions (`CompletionsSurviveIffTheyFit`).

## Model

| member | source | states |
|---|---|---|
| Lifecycle.ApplyKeepsInvariant | src/base_agent/flows/lifecycle.py:273-443 | every accepted transition from a valid state leads to a state that passes both skipped validators, has its active invocation last and every other invocation ended |
| Lifecycle.BeginKeepsInvariant | src/base_agent/flows/lifecycle.py:280-329 | beginning an invocation keeps ids unique, sequences contiguous, the invocation limit, and makes the new one active and last |
| Lifecycle.SettleKeepsInvariant | src/base_agent/flows/lifecycle.py:331-352 | settling the active invocation keeps the validators: waiting keeps it active, anything else ends it |
| Lifecycle.ResumeKeepsInvariant | src/base_agent/flows/lifecycle.py:354-373 | claiming a waiting invocation keeps the validators |
| Lifecycle.TerminateKeepsInvariant | src/base_agent/flows/lifecycle.py:413-433 | ending a run ends its active invocation with it, with a result that passes its validator, and leaves nothing active |
| Lifecycle.ActiveIsLast | src/base_agent/flows/lifecycle.py:453-462 | the active invocation, when there is one, is the last one |
| Lifecycle.ApplySucceeds | src/base_agent/flows/lifecycle.py:435-443 | a transition raises the revision by one, keeps the identity, freezes ended invocations and never starts from a terminal run |
| Lifecycle.CreateIsValid | src/base_agent/flows/lifecycle.py:219-242 | a created run satisfies the invariant, with a deadline exactly when there is a timeout |
| Lifecycle.BeginLeadsTo | src/base_agent/flows/lifecycle.py:280-329 | the next agent begins exactly when the run is running with nobody active and the request names this run, the next sequence number, a number within the limit and an agent with its definition from the run's own flow definition; the appended invocation carries the request's input |
| Lifecycle.AgentDefinitionIsFirst | src/base_agent/flows/lifecycle.py:316-329 | looking an agent up by key gives a definition exactly when that key and definition are declared together |
| Lifecycle.SettleLeadsTo | src/base_agent/flows/lifecycle.py:94-112 | in a valid run a result is taken exactly when it names this run, the active invocation and its agent, whether the agent runs or waits; the run waits exactly when the agent does |
| Lifecycle.ResumeLeadsTo | src/base_agent/flows/lifecycle.py:354-373 | in a valid run exactly the invocation it waits for is resumed, and only its status and time change |
| Lifecycle.CompleteLeadsTo | src/base_agent/flows/lifecycle.py:375-399 | a run completes exactly when it is running with nobody active, has invocations and all of them completed |
| Lifecycle.TerminateLeadsTo | src/base_agent/flows/lifecycle.py:413-433 | a valid run that has not ended is ended by any reason that is not blank, and its active agent ends in the same way with the same reason |
| Lifecycle.BeginIsValidIffFresh | src/base_agent/flows/lifecycle.py:280-329 | an accepted begin returns a state that passes validation if and only if the invocation id was not used before in this run |
| Lifecycle.ReusedInvocationIdIsAccepted | src/base_agent/flows/lifecycle.py:316-329 | a valid run and a request with a used id for which begin succeeds and its result fails the validator |
| Lifecycle.TerminateKeepsUsage | src/base_agent/flows/lifecycle.py:124-149 | ending a run leaves reported tokens and artifacts as they were |
| Lifecycle.TerminateKeepsCountsIff | src/base_agent/flows/lifecycle.py:138-146 | the model and tool call counts survive the end of a run if and only if the ended invocation had reported none |
| Lifecycle.TerminationLosesCounts | src/base_agent/flows/lifecycle.py:138-146 | a valid waiting run that has reported three model calls and reports none once it is cancelled |
| FlowEvents.ServiceLookups | src/base_agent/flows/service.py:127-187 | the service's asserted lookups never fail and `invocations[-1]` after a settle is the invocation just settled |
| FlowEvents.DraftsFollowTransition | src/base_agent/flows/service.py:114-319 | if the log replays to the view of the state, then log plus the drafts of any transition replays to the view of its successor |
| FlowEvents.CoherentThroughout | src/base_agent/flows/service.py:87-319 | in a log that replays coherently each event fits the events before it: it names the invocation that they leave active, none where the run as a whole is concerned, and completion reports the usage of all |
| Repository.InMemoryFlowRepository.CreateRun | src/base_agent/flows/repository.py:95-117 | stores the snapshot and events numbered from 1 exactly for a first revision with events of a run that does not exist, or reports which check failed and changes nothing |
| Repository.InMemoryFlowRepository.Get | src/base_agent/flows/repository.py:119-124 | returns the stored snapshot or NotFound |
| Repository.InMemoryFlowRepository.Commit | src/base_agent/flows/repository.py:126-161 | replaces snapshot and appends numbered events of this run only, when token, revision and immutable fields allow; otherwise names the error and changes nothing |
| Repository.CommitAcceptedIff | src/base_agent/flows/repository.py:347-374 | a replacement is accepted exactly as the next revision of the same run with all immutable fields as they were, from a client that knows the current revision and may write |
| Repository.InMemoryFlowRepository.AppendEvents | src/base_agent/flows/repository.py:169-203 | appends numbered events to this run only, under the token and revision checks, and returns exactly those; otherwise changes nothing |
| Repository.InMemoryFlowRepository.AcquireExecution | src/base_agent/flows/repository.py:205-245 | the lease calls of one run: what is stored is the lease that is returned, no other run is touched, and a refusal names its error and changes nothing; when a lease is given is stated by `LeaseIsGivenIff` |
| Repository.InMemoryFlowRepository.RenewExecution | src/base_agent/flows/repository.py:247-273 | extends the lease only for its active, unexpired holder and returns the lease that is stored |
| Repository.InMemoryFlowRepository.ReleaseExecution | src/base_agent/flows/repository.py:275-283 | deactivates the lease for its token, twice is harmless |
| Repository.FlowLifecycle.CreateRun | src/base_agent/flows/service.py:54-82 | a created run is stored with its creation event, or an existing run is left untouched |
| Repository.FlowLifecycle.Perform | src/base_agent/flows/service.py:114-343 | read, compute and commit without interference: the stored run becomes the lifecycle's successor and stays valid, its log grows by exactly the events of that transition, other runs are untouched, and a legal transition is refused only for its lease |
| FlowSystem.AcceptedIsCurrent | src/base_agent/flows/repository.py:347-374 | with any number of clients, a transition that the revision check accepts was computed from the snapshot that is stored now |
| FlowSystem.RunsAreSafe | src/base_agent/flows/repository.py:126-308 | every interleaving of reads, commits, failure reports, lease calls and clock ticks keeps path, fencing and event log invariants |
| FlowSystem.ConcurrentRunsAreSequential | src/base_agent/flows/service.py:114-332 | any reachable stored run is what one client gets by executing the accepted commands in order; only its last snapshot can be terminal; it passes the validators |
| FlowSystem.EndedRunsStayEnded | src/base_agent/flows/repository.py:347-374 | once a run is terminal no later step of anybody changes its snapshot, although the commit never looks at status |
| FlowSystem.ReplayRebuildsSnapshot | src/base_agent/flows/service.py:54-319 | replaying the event log from the start gives the snapshot's status, revision, invocation count, active and last invocation and token totals; sequences are 1..n; after the one terminal event only propagation failures follow |
| FlowSystem.EventsNameTheirInvocation | src/base_agent/flows/service.py:127-240 | in every reachable log a settled, resumed or waiting event names the invocation that the events before it leave active, and the completion event reports the usage of all invocations of the stored run |
| FlowSystem.CompletedRunsAreWhole | src/base_agent/flows/lifecycle.py:375-399 | a reachable run that is stored as completed has invocations, all of them completed, and shows the output of the command that completed it |
| FlowSystem.OnlyLatestHolderWrites | src/base_agent/flows/repository.py:285-308 | after the first grant a write is accepted only with the token of the latest grant, inside its window, when every earlier grant is over |
| FlowSystem.WritesAreFenced | src/base_agent/flows/repository.py:205-308 | over a whole run, attempt numbers of accepted writes never decrease, each write carries its grant's token, and the windows of two grants used do not overlap, renewals included |
| FlowSystem.LeaseIsGivenIff | src/base_agent/flows/repository.py:205-245 | after any interleaving a lease is given, as the next attempt and until now plus its time to live, exactly to a named owner asking for a positive time while the run has not ended and there was no grant or the last one is over, by expiry or release; otherwise nothing changes |
| FlowSystem.TakeoverAfterExpiry | src/base_agent/flows/repository.py:226-245 | whoever holds the lease of an unfinished run, another owner gets it after a delay exactly when the last grant is over by then; the new token can write from then on and the old one cannot, and until then the old one still can |
| FlowSystem.TokenAcceptedIff | src/base_agent/flows/repository.py:285-308 | after any interleaving a token is accepted exactly when it is the last grant's, inside its window, and no token is needed exactly before the first grant |
| FlowSystem.TransitionIsStoredIff | src/base_agent/flows/repository.py:126-161 | a transition is stored exactly when its client has read the stored snapshot, the aggregate accepts the command on it and the client's token is the last grant's inside its window; otherwise nothing changes |
| FlowSystem.FailureIsNotedIff | src/base_agent/flows/service.py:87-112 | a failed cancellation is noted, naming its invocation and leaving the snapshot alone, exactly for a client that has read the stored snapshot and is entitled to write |
| FlowSystem.LeaseIsRenewedIff | src/base_agent/flows/repository.py:247-273 | the last grant is extended to now plus the time to live exactly for its token inside its window with valid arguments; otherwise nothing changes |
| FlowSystem.LeaseIsReleasedIff | src/base_agent/flows/repository.py:275-283 | the last grant's token, and no other, ends its window now and frees the lease, however often and however late |
| SideEffects.InMemoryFlowSideEffectLedger.Prepare | src/base_agent/flows/side_effects.py:164-185 | returns the existing evidence of an operation with the same intent, refuses another intent, and otherwise stores the new evidence |
| SideEffects.InMemoryFlowSideEffectLedger.Transition | src/base_agent/flows/side_effects.py:248-276 | moves evidence by compare-and-swap along a permitted phase change, or names the error and changes nothing |
| SideEffects.TransitionDevelops | src/base_agent/flows/side_effects.py:279-296 | a move fixes the intent, raises the revision, never leaves started or confirmed for a retryable phase, and no other evidence changes |
| SideEffects.PrepareDevelops | src/base_agent/flows/side_effects.py:164-185 | preparing with a fresh id changes no stored evidence and returns evidence of the same intent |
| SideEffects.MovesIff | src/base_agent/flows/side_effects.py:248-296 | evidence moves exactly from its current revision, to started unless it was started, to confirmed once started, to aborted only before anything else happened, and nothing else changes |
| SideEffects.PreparesAgainIff | src/base_agent/flows/side_effects.py:107-115 | an operation that has evidence gets it back exactly when name, retry mode and key digest are the same |
| ToolEffects.FlowToolSideEffectRecorder.StartOrReplay | src/base_agent/flows/tool_effects.py:116-135 | ends after at most two lost races whatever others move or prepare meanwhile; an unsafe effect is started by this very call or the call is refused because replay is unsafe |
| ToolEffects.FlowToolSideEffectRecorder.Start | src/base_agent/flows/tool_effects.py:41-93 | a receipt is for this operation and meets what confirming asks for; the call fails on the ledger exactly when the operation has evidence of another name, mode or key, and is otherwise refused only for an unsafe effect that may have happened |
| ToolEffects.FlowToolSideEffectRecorder.TryStart | src/base_agent/flows/tool_effects.py:120-130 | one round either wins the start or sees a strictly higher revision |
| ToolEffects.FlowToolSideEffectRecorder.Confirm | src/base_agent/flows/tool_effects.py:95-114 | with a receipt of a start, confirming succeeds whatever others do and the effect is confirmed; the lost-ownership error is never reached |
| ToolEffects.UnsafeToolsRunAtMostOnce | src/base_agent/flows/tool_effects.py:41-135 | over every interleaving of recorders, crashes and restarts, two receipts for one operation can only exist for an idempotent tool |
| ToolEffects.RecordersNeverBreak | src/base_agent/flows/tool_effects.py:95-135 | no recorder meets a vanished record, an invalid transition or a lost confirmation, and none loses more than two races |
| ToolEffects.EvidenceIsNeverWithdrawn | src/base_agent/flows/side_effects.py:96-105 | a revision never exceeds 4 and never falls, and an effect that is not safe to retry never becomes safe again |
| ToolEffects.UndisturbedCallGetsReceiptIff | src/base_agent/flows/tool_effects.py:41-135 | after any run, a call that nobody disturbs gets its receipt exactly when its operation is new, or its evidence is for the same effect and that has not started, was aborted or may be repeated; returning the receipt confirms the effect |
| ToolEffects.DecidingIssuesIff | src/base_agent/flows/tool_effects.py:116-135 | on current evidence a receipt is issued exactly for an effect that has not started, was aborted or may be repeated, and the evidence says started or confirmed afterwards |
| PlanGraph.CycleCheck.Visit | src/base_agent/models/plan.py:93-102 | raising comes with an actual cycle, all of it among the steps being visited; otherwise the finished steps stay a dependency order that includes this one |
| PlanGraph.AssertAcyclic | src/base_agent/models/plan.py:88-105 | the walk ends and accepts exactly the acyclic graphs |
| PlanGraph.OrderExcludesCycles | src/base_agent/models/plan.py:101-105 | a dependency order of all steps rules out every cycle |
| Plan.ValidateGraph | src/base_agent/models/plan.py:73-86 | accepts a plan exactly when it has steps with unique ids, known dependencies and no cycle |
| Plan.SomeStepIsReady | src/base_agent/models/plan.py:107-117 | in a valid plan whose steps are pending or settled, some step is ready as long as one is pending |
| Plan.StartLeadsTo | src/base_agent/models/plan.py:107-126 | a step is started exactly when it is pending and every step it depends on is completed or skipped; then it and the plan run, and nothing else changes |
| Plan.CompleteLeadsTo | src/base_agent/models/plan.py:128-155 | exactly a running step is completed, with the result, success and attachments reported, and the plan with it exactly when every other step is completed or skipped |
| Plan.FailLeadsTo | src/base_agent/models/plan.py:157-164 | exactly a running step fails, with a reason that is not blank, and the plan fails with it |
| Plan.WaitLeadsTo | src/base_agent/models/plan.py:166-178 | exactly a running step waits and a waiting one is resumed, the plan with it |
| Plan.EndLeadsTo | src/base_agent/models/plan.py:180-218 | cancelling or failing a plan needs a reason, ends exactly its running and waiting steps with it, and leaves the others as they are |
| Plan.DependentsAreHeldBack | src/base_agent/models/plan.py:107-126 | as long as a step is not completed or skipped, because it failed, waits, runs or was cancelled, no step that depends on it is ready or can be started |
| Plan.RoundAccepts | src/base_agent/models/plan.py:119-155 | starting a step and completing it with any report is accepted exactly when it is not done and all its dependencies are, and then completes that step and no other |
| Plan.PlanCompletesInExactlyNRounds | src/base_agent/models/plan.py:107-155 | from an all-pending plan of n steps, whatever the steps report, the accepted sequences of rounds are exactly the dependency orders, the plan is completed exactly after n rounds, and before that another round is possible |
| Replanning.MergeReplannedSteps | src/base_agent/orchestration/plan_execution.py:563-597 | the merge, run with the depth-first check, keeps the historical steps in front of the new ones or names the reason for refusing |
| Replanning.MergeFailsOnlyForTheFuture | src/base_agent/orchestration/plan_execution.py:563-597 | a merge into a reachable plan succeeds if and only if a step has completed and the new steps have new unique ids, known dependencies and no cycle among themselves |
| Replanning.MergeKeepsInvariant | src/base_agent/orchestration/plan_execution.py:569-597 | after a merge the plan is valid, its history is the old history, and whatever was started still has all dependencies settled |
| Replanning.OpKeepsInvariant | src/base_agent/models/plan.py:119-218 | every step transition, cancel, fail and merge keeps the plan valid and its settled steps unchanged and in order |
| Replanning.ReplanningKeepsHistory | src/base_agent/orchestration/plan_execution.py:563-607 | from an all-pending plan, under any sequence of operations, the history at any moment is a subsequence of every later history |
| Replanning.CompletedPlansHaveNoOpenSteps | src/base_agent/models/plan.py:150-155 | under any sequence of operations, a plan that says completed has no pending, running or waiting step |
| Replanning.MergeCompletesHonestlyIff | src/base_agent/orchestration/plan_execution.py:575-592 | a merged plan that says completed has settled steps only, if and only if there were new steps or no step of the plan had failed or been cancelled |
| Replanning.FailedStepInCompletedPlan | src/base_agent/orchestration/plan_execution.py:575-592 | a failed plan satisfying the invariant that a merge without new steps turns into a completed one, its failed step included |
| Replanning.PastIsClosed | src/base_agent/orchestration/plan_execution.py:569-577 | the historical steps of a reachable plan are closed under dependencies and free of cycles |
| Work.InMemoryFlowWorkSource.Enqueue | src/base_agent/flows/work.py:251-270 | the same key and intent gets the existing item, another intent is refused, a new key gets a pending item available now |
| Work.InMemoryFlowWorkSource.Claim | src/base_agent/flows/work.py:336-382 | hands out the first eligible or expired item in key order under a new token with one more attempt, or nothing exactly when there is no candidate |
| Work.InMemoryFlowWorkSource.FirstCandidate | src/base_agent/flows/work.py:346-368 | finds a candidate with no candidate before it, or shows that there is none |
| Work.InMemoryFlowWorkSource.Renew | src/base_agent/flows/work.py:384-409 | extends the delivery only for its unexpired token |
| Work.InMemoryFlowWorkSource.Complete | src/base_agent/flows/work.py:411-440 | completes for the unexpired token, returns a completed item unchanged to the token that completed it, refuses any other |
| Work.InMemoryFlowWorkSource.Block | src/base_agent/flows/work.py:442-474 | the same for blocking, with a reason |
| Work.InMemoryFlowWorkSource.Retry | src/base_agent/flows/work.py:476-513 | the same for giving back, available after the delay |
| Work.InMemoryFlowWorkSource.ReviewBlocked | src/base_agent/flows/work.py:293-323 | applies a decision once to a blocked item, repeats it idempotently, and records it with the review time |
| Work.EnqueueLeadsTo | src/base_agent/flows/work.py:251-270 | a command under a new key can be claimed exactly from now on; under a known key it is accepted exactly when run, kind and data are the same, and adds nothing |
| Work.ClaimLeadsTo | src/base_agent/flows/work.py:336-382 | a claimed item can be settled exactly with its token until the time is up, and can be claimed again exactly from then on |
| Work.RenewLeadsTo | src/base_agent/flows/work.py:384-409 | a delivery is extended exactly for its token in time, and then lasts exactly the new time from now |
| Work.RetryLeadsTo | src/base_agent/flows/work.py:476-513 | a delivery is given back exactly with a delay that is not negative and a valid error, the item can be claimed again exactly from the end of the delay on, and giving back twice is the same as once |
| Work.CompleteLeadsTo | src/base_agent/flows/work.py:411-440 | a completed item can never be claimed, and completing twice is the same as once |
| Work.BlockLeadsTo | src/base_agent/flows/work.py:442-474 | an item is blocked exactly with a valid reason, keeps it and cannot be claimed, and blocking twice is the same as once |
| Work.ReviewLeadsTo | src/base_agent/flows/work.py:610-632 | an approved item can be claimed exactly from the end of the delay on, a rejected one never; the decision is recorded last with its time |
| Work.SecondReview | src/base_agent/flows/work.py:599-607 | a decision under a known key is taken for the earlier one exactly when item, decision, reviewer, reason and delay are the same, and changes nothing |
| Work.HeadHasWaitedLongest | src/base_agent/flows/work.py:361-368 | the item handed out has been available longest, then is the oldest command, then has the smallest id |
| WorkSystem.HeadIsUnique | src/base_agent/flows/work.py:361-368 | the key orders items totally, so there is only one item a claim can hand out |
| WorkSystem.ClaimDelivers | src/base_agent/flows/work.py:346-382 | a claim hands out the first candidate for exactly its time to live and counts the attempt, and hands out nothing exactly when there is no candidate |
| WorkSystem.SomeoneIsFirst | src/base_agent/flows/work.py:346-368 | where there is a candidate there is a first one |
| WorkSystem.RunsAreSafe | src/base_agent/flows/work.py:251-567 | every run of workers and operators, at any clock readings and with commands sent again, keeps items, indexes and tokens consistent |
| WorkSystem.OnlyLiveDeliveriesWrite | src/base_agent/flows/work.py:515-567 | without a live unexpired delivery, settling or renewing changes nothing |
| WorkSystem.DeadTokensStayDead | src/base_agent/flows/work.py:336-567 | a token that was superseded or settled never becomes live again |
| WorkSystem.EndedItemsNeverChange | src/base_agent/flows/work.py:411-440 | completed and discarded items are never changed by any later step |
| WorkSystem.AttemptsCountDeliveries | src/base_agent/flows/work.py:107-127 | in every reachable queue the skipped validator holds of every item and `attempt` is the number of tokens ever issued for it |
| WorkSystem.EnqueueKeepsItemsIffFresh | src/base_agent/flows/work.py:262-270 | enqueueing keeps all queued items if and only if the key is known or the command id is new |
| WorkSystem.EnqueueOverwrites | src/base_agent/flows/work.py:262-270 | an accepted command under a new key with a used id after which the earlier item is gone and its key leads to the new command |
| WorkSystem.StepOvertakes | src/base_agent/flows/work.py:346-381 | while an item waits whose time of availability has passed, no step puts anything new ahead of it, only items ahead are handed out, and a settled delivery takes its item away from ahead |
| WorkSystem.OvertakingIsBounded | src/base_agent/flows/work.py:336-513 | over any run in which such an item keeps waiting, settled and first deliveries ahead of it are bounded by the items ahead at the start; only expired deliveries repeat |
| Budget.BeforeTransportMeaning | src/base_agent/flows/budget.py:73-96 | a transport is let through exactly when counts are consumable, the deadline is ahead, a new invocation is allowed and no configured check is reached; which totals these are is stated by `LetThroughIff` |
| Budget.AfterTransportMeaning | src/base_agent/flows/budget.py:98-111 | a settled run passes exactly when counts are consumable, the deadline is ahead and no configured check is exceeded; which totals these are is stated by `PassesIff` |
| Budget.LetThroughIff | src/base_agent/flows/budget.py:73-96 | a transport is let through exactly when no sum of calls is negative, the deadline is ahead, a new invocation is allowed, and input tokens, output tokens, all tokens, model calls and tool calls, summed over all agents, are each below their own limit where one is set |
| Budget.PassesIff | src/base_agent/flows/budget.py:98-111 | a settled run passes exactly when no sum of calls is negative, the deadline is ahead, and none of the five sums is above its own limit |
| Budget.BeforeTransportReports | src/base_agent/flows/budget.py:73-96 | before a transport the deadline is reported first, then the invocation limit, then the first sum in the policy's order that has reached its limit, each with its own limit and total |
| Budget.AfterTransportReports | src/base_agent/flows/budget.py:98-179 | after a transport the deadline is reported first, then the first sum in the policy's order that is above its limit, with that limit and total |
| Budget.OutOfTimeIff | src/base_agent/flows/budget.py:124-134 | a run is out of time exactly when it was created with a timeout and that long has passed |
| Budget.NothingReached | src/base_agent/flows/budget.py:169-179 | the scan finds no violation exactly when no configured check is reached |
| Budget.NegativeSumRaises | src/base_agent/flows/budget.py:57-71 | a valid unlimited run with one report of -1 model calls, on which both checks raise |
| Budget.NegativeReportAlonePasses | src/base_agent/flows/budget.py:57-71 | reports of 5 and -3 model calls do not raise, since their sum is not negative |
| Sequential.SequentialFlow.Start | src/base_agent/flows/sequential.py:68-87 | a started flow ends waiting or terminal in a valid state with every transport started below every limit; it raises if and only if totals cannot be built, the task is cancelled, an unconfigured timeout fires or an agent ends without a reason; with limits off and well-behaved agents it waits or is concluded |
| Sequential.SequentialFlow.Advance | src/base_agent/flows/sequential.py:221-310 | without other writers, the loop makes at most one transport per remaining agent, raises for exactly those reasons, and with limits off and well-behaved agents leaves the run waiting or concluded |
| Sequential.SequentialFlow.ResumeWaiting | src/base_agent/flows/sequential.py:115-196 | without other writers, a resume asks the agent exactly when the run waits and no limit is reached, leaves a terminal run alone, raises for exactly the stated reasons, and continues with the prompt and attachments of the waiting invocation |
| Sequential.SequentialFlow.Absorb | src/base_agent/flows/sequential.py:257-303 | a timeout ends the run at its limit, a cancelled task interrupts it, an exception fails it, only a completed agent within all limits lets the next one start, and the call raises exactly for the stated reasons |
| Sequential.SequentialFlow.Judge | src/base_agent/flows/sequential.py:294-330 | the outcome of a settled transport: at the limit, passed on, waiting, or ended as the agent ended with its error |
| Sequential.SequentialFlow.StopAtLimit | src/base_agent/flows/sequential.py:230-236 | stops exactly when the check before a new invocation does not pass |
| Sequential.SequentialFlow.Finish | src/base_agent/flows/sequential.py:305-310 | after the last agent the run is completed with that agent's output |
| Sequential.EveryStateIsWithinBudget | src/base_agent/flows/sequential.py:229-310 | invocations are a prefix of the declared agents and within both bounds, each transport started with every total below its limit, a completed run has all agents completed, every total within its limit and the last agent's output |
| Sequential.EveryAgentIsHandedTheEarlierResult | src/base_agent/flows/sequential.py:237-256 | in every state of a flow the first agent has no handoff and every later one names the agent declared before it and carries that agent's metadata, artifacts and output, or the default text when there is none; prompt and attachments are the flow's own |
| Sequential.AgentsAreHandedTheEarlierResult | src/base_agent/flows/sequential.py:457-465 | the same for any valid run that is a chain of the declared agents |
| Sequential.ConcludedMeans | src/base_agent/flows/sequential.py:305-330 | a concluded run is completed exactly when every declared agent has completed, and then shows the last output or the empty text; it stands at the invocation limit when the others were not allowed; otherwise it has the status and the error of the agent that did not complete |
| Sequential.BeginNext | src/base_agent/flows/sequential.py:237-256 | the next agent's invocation is never refused, extends the chain and adds nothing to the totals; what it carries is stated by `AgentsAreHandedTheEarlierResult` |
| Sequential.SettleTransport | src/base_agent/flows/sequential.py:277-293 | a result is settled exactly when it names this run, invocation and agent |
| Sequential.SameInputs | src/base_agent/flows/sequential.py:237-251 | two runs of one flow whose agents give the same final answers agree on agents, inputs and answers as far as both go |
| Sequential.WaitingIsTransparent | src/base_agent/flows/sequential.py:115-310 | two concluded runs of one flow whose agents gave the same final answers have the same agents in order, inputs, handoffs, answers, status, output and error |
| Sequential.SequentialFlow.RunToEnd | src/base_agent/flows/sequential.py:68-196 | with limits off and well-behaved agents, starting a flow and resuming it as long as it waits comes to an end, and the run is concluded |
| Sequential.RunsAgree | src/base_agent/flows/sequential.py:68-310 | one flow run twice, over agents that give the same final answers after any waits of their own, ends with the same agents in order, prompts, attachments, handoffs, answers, status, output and error |
| Sequential.AllAnswered | src/base_agent/flows/sequential.py:294-310 | in a concluded run every invocation has ended with a result of its own agent |
| SequentialRaces.RacingFlow.Advance | src/base_agent/flows/sequential.py:221-310 | whatever others commit in between and wherever the lease is lost, the run stays valid and what has ended stays as it is; a run that has ended gets no transport; a result that is returned is the stored run, ended or waiting; there is at most one transport per agent; and a call that nobody disturbs raises exactly for the reasons of the sole writer |
| SequentialRaces.RacingFlow.ResumeWaiting | src/base_agent/flows/sequential.py:115-196 | the same for a resume; undisturbed and without a transport it raises exactly when the totals cannot be built |
| SequentialRaces.RacingFlow.HandleReply | src/base_agent/flows/sequential.py:257-303 | a transport that comes back to an ended run returns the stored end, for a result, an exception and a configured timeout alike, and changes nothing; undisturbed it raises exactly for the reasons of the sole writer |
| SequentialRaces.RacingFlow.EndUnlessEnded | src/base_agent/flows/sequential.py:332-401 | a failure or a limit ends the run, unless somebody else has ended it: then that end is returned unchanged |
| SequentialRaces.RacingFlow.Launch | src/base_agent/flows/sequential.py:252-261 | a transport starts only with an accepted commit, from a run that is running with an active invocation; an ended run refuses it |
| SequentialRaces.RacingFlow.Perform | src/base_agent/flows/service.py:114-332 | a lifecycle call among other writers commits the transition of what is stored, or changes nothing; an ended run refuses every one in the same way; undisturbed it does exactly what the aggregate says |
| ToolLoop.FinishedBatchesAreWhole | src/base_agent/orchestration/model_tool.py:159-468 | at any moment of a run suspended any number of times, step and tool counts are within their limits, and every finished batch with distinct call ids observed the model's calls in order, each with one message and one count |
| ToolLoop.DroppedAtTheStepLimit | src/base_agent/runtime/engine.py:267-281 | a run whose batch waits in its last step, is answered and resumed, and ends at the step limit with the batch dropped, beside the run in which the tool answers and the batch is finished |
| ToolLoop.AgentRun.Turn | src/base_agent/runtime/engine.py:268-281 | one round of the loop lowers the measure of steps left and suspended batch, and continues a suspended batch exactly when nobody has cancelled and the step limit is not reached |
| ToolLoop.AgentRun.Record | src/base_agent/orchestration/model_tool.py:359-374 | a batch goes on after an answer exactly when the run of failures is below its maximum, or the answer is a success, and nobody has cancelled |
| Supervision.DuplicatesCountTheStreak | src/base_agent/supervision/policies.py:45-65 | the detector's count is the length of the run of identical calls at the end |
| Supervision.FailuresCountTheStreak | src/base_agent/supervision/policies.py:72-94 | the detector's count is the length of the run of unsuccessful results at the end |
| Supervision.RoomyBatchesAreNotStopped | src/base_agent/supervision/policies.py:26-94 | with room under every limit for all its calls and nobody cancelling, a batch is finished or waits |
| Supervision.BatchPassesIff | src/base_agent/orchestration/model_tool.py:159-383 | a batch passes exactly when no call is in trouble: cancelled before or after it, over the tool call limit, identical to the calls before it as often as the threshold, waiting for a human, or completing a run of failures of the maximal length |
| Supervision.BatchEndsAtFirstTrouble | src/base_agent/orchestration/model_tool.py:174-374 | otherwise the batch is stopped in the state, or suspended at the call with the calls after it, that its first call in trouble determines, with every call before it executed once, and that call executed only if the trouble comes after its execution |
| Supervision.CountersAfterBatch | src/base_agent/supervision/policies.py:45-94 | after a batch that passed the counters are the number of calls added to each, and exactly the lengths of the runs of identical calls and of failures at its end, those before the batch included |
| Supervision.PassedBatchesAreFree | src/base_agent/supervision/policies.py:45-94 | no call of a batch that passes completes a run of identical calls or of failures that reaches its limit |
| Supervision.RepetitionIsStopped | src/base_agent/supervision/policies.py:45-65 | where nobody cancels, tools succeed and there is room, a batch is redirected at the first call that completes a run of identical calls as long as the threshold, without executing it, and passes exactly when there is none |
| Supervision.FailuresAreStopped | src/base_agent/supervision/policies.py:72-94 | where nobody cancels, nobody waits, nothing repeats and there is room, a batch is redirected after the first answer that completes a run of failures as long as the maximum, and passes exactly when there is none |
| Supervision.FinishedBatchesDoNotRepeat | src/base_agent/runtime/engine.py:267-281 | over a whole run no finished batch holds as many identical calls in a row as the threshold |
| Supervision.ConfirmationIsForItsCall | src/base_agent/orchestration/model_tool.py:176-224 | a confirmation that no call of a batch carries changes nothing of what becomes of the batch |
| Supervision.FateIsBounded | src/base_agent/runtime/engine.py:267-281 | the end that the world and the limits determine for a run takes at most the allowed model steps, finishes at most one batch in each, and is not a running state |
| Supervision.HumanAnswerIsNotCounted | src/base_agent/orchestration/model_tool.py:385-468 | for any counters and any answer other than a success with no failure counted, limits, calls and a calm world in which the resumed batch and the uninterrupted one end differently |
| Supervision.ResumingAgreesIff | src/base_agent/orchestration/model_tool.py:385-468 | a batch resumed with a human's answer ends like the one in which the tool gives that answer, under all limits, calls and worlds without cancellation, if and only if the answer is a success and no failure had been counted |
| Supervision.RemainingCallsAreCountedIff | src/base_agent/orchestration/model_tool.py:176-224 | when an approved call and the rest of its batch pass, the remaining calls were all counted if and only if none carries its id |
| ToolLoop.SharedIdEscapesTheLimit | src/base_agent/orchestration/model_tool.py:176-224 | a run that may make one tool call, waits for its approval, and then also runs another call with the same id, uncounted and unsupervised |
| ToolLoop.AgentRun.BeforeTool | src/base_agent/supervision/policies.py:26-65 | stops exactly at the tool call limit; otherwise counts repetitions of the identical call and redirects at the threshold |
| ToolLoop.AgentRun.Admit | src/base_agent/orchestration/model_tool.py:174-227 | a call is let through, denied or stopped as `Admitted` and the state say; a denied one gets the answer of the supervisor's intervention and the advice to change strategy as messages, and unless confirmed a call is counted once; what this means for whole batches is stated by `RepetitionIsStopped` and `BatchEndsAtFirstTrouble` |
| ToolLoop.AgentRun.RunCall | src/base_agent/orchestration/model_tool.py:174-374 | a call passes, waits or stops the batch exactly as counters, limits and world say; a passing call is the tool's own answer, appended once to messages and observations |
| ToolLoop.AgentRun.ExecuteToolBatch | src/base_agent/orchestration/model_tool.py:159-383 | the batch is finished, suspended at exactly that call or given up in exactly that state, with exactly those counters, as counters, limits and world say; finished, its observations are the model's calls in order, once each, with the tools' own answers and their messages, after any number of suspensions |
| ToolLoop.AgentRun.ResumeActionBatch | src/base_agent/orchestration/model_tool.py:385-468 | a suspended batch is continued where it stopped: the human's answer, or what the approved tool says, is the observation of the waiting call, and the rest is finished, suspended or given up exactly as counters, limits and world say |
| ToolLoop.AgentRun.Advance | src/base_agent/orchestration/model_tool.py:46-157 | a turn either resumes the suspended batch or takes exactly one model step, and what becomes of the batch is exact in both cases |
| ToolLoop.AgentRun.Execute | src/base_agent/runtime/engine.py:267-281 | the run loop ends with exactly the state, steps, counters and finished batches that the world and the limits determine, never above the step and tool call limits; a suspended batch is continued if and only if nobody has cancelled and the step limit is not reached, and otherwise nothing of it is executed |
| ToolLoop.AgentRun.PrepareResume | src/base_agent/runtime/engine.py:365-436 | a pending confirmation takes exactly a decision about its own request and no text, any other wait exactly a text that is not blank and no decision; accepted, exactly the answer that the suspended call is waiting for is appended, which is the one found when the batch is resumed |
| RaftJournal.RaftWorker.RunOnce | src/base_agent/integrations/raft/worker.py:72-100 | whatever fails, the invariant stands: no saved claim, execution or reply is repeated while its spool lasts (batches within the limit) and entries name spooled messages or stale ones; it succeeds exactly when no action fails, and then every message that the gate lets through in any case, that nobody else can claim and that was not known to be completed has its reply, no refused message has, those of a batch within the limit are completed or were known to be, and entries became stale exactly when the disk was lagging |
| RaftJournal.EachReplied | src/base_agent/integrations/raft/worker.py:85-94 | in a dispatched batch every wanted message that was not known to be completed, the first of its id, has its reply, sent now or recorded before |
| RaftJournal.HandledIsBetween | src/base_agent/integrations/raft/worker.py:83-100 | the reported number of handled messages is at least that of the sure ones and at most that of those not refused |
| RaftJournal.SavedPhasesAreNotRepeated | src/base_agent/integrations/raft/worker.py:153-195 | at any moment, for a batch within the limit, no claim, execution or reply is attempted after its own save, failed attempts included, nothing saved is forgotten in memory or on disk, and entries name messages of the current spool or stale ones |
| RaftJournal.CrashesAloneNeverLag | src/base_agent/integrations/raft/state.py:56-71 | after a restart, or while every save succeeded, clearing the spool leaves no entry behind |
| RaftJournal.LaggingArises | src/base_agent/integrations/raft/worker.py:153-195 | a worker with the smallest limit that its configuration allows and one message that went through every phase and whose completion could not be saved: its disk is lagging |
| RaftJournal.RaftWorker.ProcessMessage | src/base_agent/integrations/raft/worker.py:153-195 | a handled message was not refused, was addressed or belongs to a waiting conversation, was replied to and is closed on disk, and its conversation then waits exactly for the run that asked in return; a skipped one saw neither execution nor reply, was turned away by the gate or by a refused claim, and leaves waiting runs and tasks alone |
| RaftJournal.RaftWorker.ProcessMessages | src/base_agent/integrations/raft/worker.py:85-94 | after the loop every spooled message is closed in memory, the sure ones have their replies and the refused ones have not, and the journal is saved unless there was nothing to do |
| RaftJournal.RaftWorker.ObtainReply | src/base_agent/integrations/raft/worker.py:162-171 | a cached reply is used without executing anything; otherwise the waiting run of the conversation is resumed, in one attempt, or forgotten with its task and replaced by a new run when it cannot be found, or a new run is started where none waits; the saved journal has the result's text, the task to review and the run and task that now wait, as that result calls for |
| RaftJournal.RaftWorker.ExecuteAgent | src/base_agent/integrations/raft/worker.py:249-273 | the result is the resumed run's exactly when the conversation has a waiting run that is found, after one attempt and without a change; it is a new run's when there is none, or after forgetting the one that cannot be found |
| RaftJournal.CachedReplyReflects | src/base_agent/integrations/raft/worker.py:275-310 | after a result the journal holds its text, the message's own task or the conversation's for review exactly when the agent has completed, the waiting run exactly when it waits, with the message's own task, and is otherwise unchanged |
| RaftJournal.RaftWorker.MoveToReview | src/base_agent/integrations/raft/worker.py:178-191 | nothing happens without a task to review; otherwise the task is updated and the conversation's waiting run and open task are forgotten, and nothing else |
| RaftJournal.RaftWorker.ClaimIfNeeded | src/base_agent/integrations/raft/worker.py:221-247 | a claim already recorded makes no new attempt and changes nothing; a new claim is saved; a refused claim says so |
| RaftJournal.RaftWorker.SendReply | src/base_agent/integrations/raft/worker.py:173-176 | a reply already recorded makes no new attempt and changes nothing; a new one is sent and saved |
| RaftJournal.RaftWorker.MarkCompleted | src/base_agent/integrations/raft/state.py:62-71 | completes the message and removes its entries and no others, keeping every saved phase of the batch known |
| RaftJournal.RaftWorker.Restart | src/base_agent/integrations/raft/state.py:96-111 | a new process starts from what was saved, and everything saved in this batch is still known |
| RaftJournal.CompleteKeepsSound | src/base_agent/integrations/raft/state.py:62-71 | evicting old completions never forgets one of the current batch when the batch fits the limit |
| RaftJournal.CompletionsSurviveIffTheyFit | src/base_agent/integrations/raft/state.py:62-71 | after completing any distinct new messages, all of them are still known if and only if there are no more than the limit |
| RaftJournal.CompletionIsForgotten | src/base_agent/integrations/raft/state.py:62-71 | for every limit: after as many completions as the limit the first is known, after one more it is forgotten |

## Left out

- PostgreSQL and Redis stores: the same protocols over transactions that cannot be seen here.
- asyncio scheduling, heartbeats and task cancellation: they appear as crash, renew, release and clock steps. `updated_at` is taken at the commit.
- Providers, MCP, sandbox, browser, web search, command lines and servers: input and output only.
- Flow recovery decisions, registries, resource manager, memories, artifact and conversation stores: single branches that would add easy members.
- The planning strategy's phase machine and its parsing of model text: only the merge and the plan transitions are modelled.
- Prompt text, message formats, numbers inside limit messages and event payload fields other than identity, revision and token usage.
- `list_blocked`, `list_reviews`, `list_for_invocation` and `events`: sorted or copied views of the modelled state.
- The executor and metadata fields of plan steps, and the validator of a single step.
- Invalid metadata in a pending confirmation and an unreadable suspended batch: the engine reports an error before anything changes.
- Cancellation hooks of invokers: only the event that records their failure is modelled.
- Sequential.RunsAgree: transparency is stated for a run without other writers, as the holder of the execution lease has it; under other writers the call keeps what `SequentialRaces` states.
- RaftJournal.RaftWorker.RunOnce: parsing the spool again gives the messages that were received; an action outside the journal that fails counts as attempted, since it may have taken effect.
