# A verified model of the case-automation core

A Dafny model of the parts of the system on which everything else leans: the durable workflow engine
with its approval gates and crash recovery, the deadline calendar with its reminders, the hash-chained
audit log, the approval-token format, and the circuit breaker with its retrying client. Code that
changes state is modelled by classes and methods that update it in place. Each main operation is proved to
do what a description of it says that is read off the state before the call, without stepping through the
operation, and that fits exactly one outcome; it is also proved equal to a function from old state to new, and
the promises are proved of those functions, over every history of calls or every interleaving of workers.

`dafny verify dfyconfig.toml` checks the whole project.

## Layout

- `States`, `Protocol`, `ProtocolSafety`, `ProtocolTheorems`, `ProtocolRuns`, `ProtocolGates`,
  `ProtocolResolving`, `ProtocolRejection`, `ProtocolOverrun`, `ProtocolStranded`, `ProtocolCompletion`,
  `ProtocolOutcome`, `ProtocolRepeats`, `ProtocolWitnesses`: one run as a concurrent
  protocol. Any number of workers inside `_execute` and of callers inside `resolve_gate`,
  interleaved store call by store call, with stale snapshots, crashes between any two calls, no working
  run lock, and an idempotency store that forgets or raises.
- `Workflow`, `WorkflowRuns`, `WorkflowEffects`, `WorkflowHistory`, `WorkflowTheorems`,
  `WorkflowLimits`, `WorkflowOverrun`, `WorkflowWitnesses`: all stores when calls come one after another, and
  what every history of starts, executions, resolutions and sweeps keeps. `WorkflowPass`, `WorkflowDesk`,
  `WorkflowStarts`, `WorkflowSweeps`: what one execution, one request for approval, one resolution, one start
  and one sweep do, described field by field. `RunStore`, `WorkflowEngine`: the stores and the engine as
  classes, whose methods do that.
- `EngineRefinement`, `DeskRefinement`, `HistoryRefinement`: the sequential model refines the protocol.
  Whatever a history of calls leaves stored of a run, with its gates, tokens and decisions, is what some
  interleaving of the protocol reaches, so the protocol's theorems carry over.
- `AuditLog`, `TokenFormat`: the hash chain and the token wire format.
- `Gregorian`, `Holidays`, `HolidayTable`, `BusinessDays`, `Calendar`, `DueDate`: dates, federal
  holidays (section 6103(a)-(b) of title 5, U.S. Code), business-day walks and due dates.
- `Reminders`, `ReminderLifecycle`, `ReminderHistory`, `ReminderTheorems`, `ReminderArms`,
  `ReminderWitnesses`, `ReminderCalls`, `ReminderService`: each call, and the reminder life cycle over every
  history of calls.
  `FiringProtocol`, `FiringRefinement`: calls on one deadline interleaved at every await, of which every
  sequential history is one.
- `Breaker`, `OutboundClient`: the circuit breaker and the client that drives it.

## Where the code and its promises part

Each of these is a theorem or a concrete history below; the model follows the code.

- The in-process retry of a failed step never happens: the write back to pending is refused by the
  transition table, so `execute` raises and the next sweep retries (`RetryAlwaysRefused`,
  `RetryableFailureRaises`).
- Handlers succeed at most once under every interleaving, unless the idempotency store itself raises right
  after a handler returned; then the step is stored as failed and can succeed again. For every workflow and
  task the bound of one success more than exceptions is exact (`OneOwnerOneSuccess`, `ReturnsBoundExact`,
  `IdemErrorRepeatsSuccess`).
- Rejection is final when calls come one after another (`RejectionIsFinal`). Under interleavings a rejected
  run can still enter a handler exactly if there is a way to one: past steps that have succeeded, have an
  output on record, can still be committed or are gates about to be advanced, to a handler step that is
  pending, failed or can still fail; or such a way by the snapshot of a worker under way
  (`RejectedEntersIff`; `QuietRejectionFinalIff` with nobody under way). An advance delayed past the
  rejection leaves one (`RejectionOverrun`), and so does a stale snapshot that asks again after the
  approval, with no two resolve calls overlapping (`StaleSnapshotOverrun`).
- Decisions on a gate request are at most the tokens issued for it (`RulingsWithinTokens`). A request over n
  channels can receive two, in some interleaving, exactly if n is at least two and its role may decide at
  all (`TwoRulingsIff`, `OneGateTwoDecisions`); one after another it receives one (`DecisionsMatchGates`).
- The attempt limit is passed exactly when a run is driven, by an unlocked `execute` or a sweep that lists
  it, while it stands at a handler with its attempts used up (`PastLimitIff`, `LimitPassedIff`). A parked run
  executed again and again gets there (`InvokedAnyNumberOfTimes`); approving a gate request it left pending
  sets it running (`OldApprovalRevivesParked`, `ParkedRunRevived`).
- A crash can end a run for good. A run that nobody drives can still succeed exactly if no step is left
  running without an output on record, and the run is queued, running or parked, or waits with a gate ahead
  or something that can approve (`SucceedsIff`). A crash inside a handler leaves such a step
  (`CrashStrandsRun`); one after the output was recorded does not, and the run succeeds with the step still
  stored as running (`RecordedStrandSucceeds`).
- A holiday observed on Friday 31 December is missed, because the lookup is by the date's own year
  (`MissedHolidays`; `MissedNewYear2022` for 31 December 2021).
- A scheduling call that fails at a later reminder leaves the arms of the earlier ones live for good
  (`ArmsExactIffNoLeak`, `FailedScheduleLeaksArms`).
- Deadlines scheduled with an empty idempotency key share reminder keys. An armed reminder is declined
  exactly if its key was delivered with Redis present and has not expired, and only for such deadlines
  (`SuppressedIff`, `SharedKeySuppressesReminder`). A past-due deadline raises only on the call that stored
  it (`ScheduleIdempotent`).
- A reminder is delivered at most once when calls do not overlap (`DeliveredAtMostOnce`,
  `SerialDeliversOnce`). When they do, another delivery can come exactly if the key is stored as armed, or a
  call under way is about to deliver it or holds a record in which it is armed (`DeliveryPossibleIff`): the
  two redundant arms can deliver twice (`RedundantArmsDeliverTwice`), and firing two reminders at once can
  put a delivered one back to armed and forget an escalation (`OverlapRearms`).
- A half-open breaker does not keep a request to the documented single probe. A second attempt comes exactly
  if the first fails retryably, the policy allows another and the deadline has not passed
  (`SecondProbeIff`); one probe for every vendor and clock means a policy of one attempt or of no time
  (`SingleProbeIff`, `HalfOpenProbedTwice`). Overlapping requests all get a probe as long as none reads the
  state after another's failure is recorded (`OverlappingProbesIff`).

## Model

| member | source | states |
|---|---|---|
| `ProtocolSafety.NextInv` | src/cam/core/orchestrator/engine.py:95-300 | every atomic move of a worker, resolver, crash, loss or operator keeps the invariant: completions in declared order, one owner per running step, every completed gate approved, stale snapshots never ahead of the store |
| `ProtocolSafety.ExecInv` | src/cam/core/orchestrator/engine.py:95-300 | the invariant holds after every finite sequence of events |
| `ProtocolTheorems.CompletionFollowsDeclaration` | src/cam/core/orchestrator/engine.py:116-224 | in every reachable state the first completions, by name, are a prefix of the declared steps, and a succeeded run has completed them all |
| `ProtocolTheorems.HandlerRunsAfterApproval` | src/cam/core/orchestrator/gates.py:194-250 | whoever is inside a handler has all earlier steps completed, and each earlier gate has a stored approve decision by an actor of exactly the required role |
| `ProtocolTheorems.OneOwnerOneSuccess` | src/cam/core/orchestrator/engine.py:143-199 | at most one worker is inside a step at a time; its handler returns at most once more than the idempotency store raised on it |
| `ProtocolTheorems.AtMostOnce` | src/cam/core/orchestrator/store.py:132-142 | without idempotency-store exceptions, even if it forgets everything, each handler returns successfully at most once over the life of the run |
| `ProtocolRepeats.ReturnsBoundExact` | src/cam/core/orchestrator/engine.py:166-199 | for every workflow, every task and every number of idempotency-store exceptions on it, a bound on its successful returns holds in all reachable states exactly if it is at least one more than the exceptions |
| `ProtocolTheorems.StrandedForever` | src/cam/core/orchestrator/states.py:58-66 | a step left running by a crashed worker is never entered again, and if its handler had not returned the run never succeeds |
| `ProtocolTheorems.RetryAlwaysRefused` | src/cam/core/orchestrator/engine.py:201-216 | the write of a failed step back to pending is refused whatever is stored, so the worker leaves and nothing changes |
| `ProtocolTheorems.TokenDecidesAtMostOnce` | src/cam/core/orchestrator/store.py:168-173 | under every interleaving of submissions, decisions carry pairwise distinct tokens, all of them used |
| `ProtocolGates.RulingsWithinTokens` | src/cam/core/orchestrator/gates.py:181-234 | in every reachable state the decisions on a gate request are at most the tokens issued for it, each made with its own token |
| `ProtocolGates.AtMostQuota` | src/cam/core/orchestrator/engine.py:257-267 | a request opened over n channels receives at most n decisions in every continuation, and none unless its role may decide |
| `ProtocolGates.TwoRulings` | src/cam/core/orchestrator/gates.py:181-234 | from every state in which a worker is about to open a request over two channels or more, for a role that may decide, some continuation stores two decisions on it |
| `ProtocolGates.TwoRulingsIff` | src/cam/core/orchestrator/gates.py:181-234 | a request opened over n channels can be decided twice in some continuation exactly if n is at least two and its role may decide |
| `ProtocolRejection.NextBack` | src/cam/core/orchestrator/states.py:44-55 | no event opens a way to a handler on a rejected run that was not there, and the run stays rejected |
| `ProtocolOverrun.RejectedEntersIff` | src/cam/core/orchestrator/gates.py:244-250 | in every reachable state of a rejected run some continuation enters a handler exactly if what is stored, the resolvers about to advance a gate and the workers under way leave a way to a claimable step |
| `ProtocolOverrun.QuietRejectionFinalIff` | src/cam/core/orchestrator/engine.py:116-147 | with nobody under way a rejected run can enter a handler exactly if some pending or failed handler step has only succeeded or recorded steps before it |
| `ProtocolStranded.StrandedUnrecorded` | src/cam/core/orchestrator/engine.py:134-147 | a step left running with no output on record that is not empty, and nobody past it, keeps the run from ever succeeding |
| `ProtocolCompletion.RunningSucceeds` | src/cam/core/orchestrator/engine.py:116-229 | a running run with no step left running without an output on record can be driven to succeeded, through every task and gate ahead |
| `ProtocolCompletion.WaitingSucceeds` | src/cam/core/orchestrator/gates.py:181-250 | so can a waiting one with a gate ahead, or an unspent token or a resolver that can approve |
| `ProtocolOutcome.SucceedsIff` | src/cam/core/orchestrator/engine.py:116-229 | for every reachable run that nobody drives: some continuation marks it succeeded exactly if it is succeeded, or no step is left running without an output on record and it is queued, running or parked, or waits and can go on |
| `ProtocolWitnesses.IdemErrorRepeatsSuccess` | src/cam/core/orchestrator/engine.py:170-199 | a reachable state in which a handler returned twice after one idempotency-store exception |
| `ProtocolWitnesses.OneGateTwoDecisions` | src/cam/core/orchestrator/gates.py:181-234 | a reachable state with two decisions stored for one gate, from two channels at once |
| `ProtocolWitnesses.RejectionOverrun` | src/cam/core/orchestrator/gates.py:244-250 | a reachable state with the run rejected and a worker inside the handler behind the rejected gate |
| `ProtocolWitnesses.StaleSnapshotOverrun` | src/cam/core/orchestrator/engine.py:107-131 | the same reached with every resolve call ended before the next begins, through a stale snapshot |
| `ProtocolWitnesses.CrashStrandsRun` | src/cam/core/orchestrator/engine.py:143-166 | a reachable running run, its worker crashed inside the handler, that can never succeed |
| `ProtocolWitnesses.RecordedStrandSucceeds` | src/cam/core/orchestrator/engine.py:134-141 | a reachable succeeded run whose step is still stored as running, its worker crashed after recording |
| `EngineRefinement.WalkRefines` | src/cam/core/orchestrator/engine.py:116-229 | the step loop from any step on ends in the stored run that some sequence of single store calls by one worker reaches |
| `EngineRefinement.ExecuteRefines` | src/cam/core/orchestrator/engine.py:76-229 | every call of execute, from any protocol state agreeing with the stores on the run, has the effect of a sequence of protocol events by one new worker |
| `EngineRefinement.ExecuteStaysReachable` | src/cam/core/orchestrator/engine.py:76-229 | what execute makes of a run reachable in the protocol is again reachable, so the theorems on interleavings apply to it |
| `DeskRefinement.AskAgrees` | src/cam/core/orchestrator/engine.py:241-276 | when a step asks for approval in both models, gates and tokens still correspond under an injective renaming of identifiers |
| `ProtocolResolving.ResolveRounds` | src/cam/core/orchestrator/gates.py:181-252 | six moves of a resolver take an unspent token to a full ruling if its gate is pending and admits the actor, and otherwise only spend it |
| `DeskRefinement.ResolveOwn` | src/cam/core/orchestrator/gates.py:141-252 | every resolve call on the run, refused or not, is matched by moves of one protocol resolver, and run, gates, tokens and decisions still correspond, the decisions one for one and in order |
| `HistoryRefinement.StartMirrored` | src/cam/core/orchestrator/triggers.py:51-91 | a started run corresponds to the protocol's initial state for its declared steps |
| `HistoryRefinement.HistoryIsInterleaving` | src/cam/core/orchestrator/engine.py:76-300 | after every history of starts, executions, resolutions and sweeps over any number of runs, the stored run, its gates, tokens and decisions correspond, the decisions one for one and in order, to a reachable protocol state |
| `HistoryRefinement.SucceededBehindApprovals` | src/cam/core/orchestrator/gates.py:194-250 | in every history a step has succeeded only if every gate declared before it has a stored approval by an actor with gate.approve, as carried over from the protocol |
| `RunStore.InMemoryRunStore.CreateRun` | src/cam/core/orchestrator/store.py:45-53 | a dedupe hit returns the stored run and changes nothing; otherwise exactly the run, its steps and its key are stored |
| `RunStore.InMemoryRunStore.UpdateRunStatus` | src/cam/core/orchestrator/store.py:58-80 | unknown run and illegal transition are errors that change nothing; otherwise only that run's status and, where given, current step and error change |
| `RunStore.InMemoryRunStore.AdvanceGateStep` | src/cam/core/orchestrator/store.py:91-107 | marks the first step of that name succeeded past the transition guard, and nothing else |
| `RunStore.InMemoryRunStore.FindRecoverableRuns` | src/cam/core/orchestrator/store.py:112-117 | returns exactly the queued and running runs, in stored order |
| `RunStore.InMemoryRunStore.UpdateStep` | src/cam/core/orchestrator/store.py:132-142 | replaces the stored step of that name if the table allows the status, refuses otherwise, raises on an unknown step |
| `RunStore.InMemoryRunStore.MarkTokenUsed` | src/cam/core/orchestrator/store.py:168-173 | true exactly for the first use of a stored token, which it marks; otherwise nothing changes |
| `RunStore.InMemoryIdempotencyStore.Reserve` | src/cam/core/orchestrator/idempotency.py:52-56 | true exactly if the key was absent, which then holds the placeholder |
| `RunStore.InMemoryIdempotencyStore.Record` | src/cam/core/orchestrator/idempotency.py:58-59 | the key holds the given output afterwards and every other key is unchanged |
| `RunStore.InMemoryIdempotencyStore.Lookup` | src/cam/core/orchestrator/idempotency.py:61-68 | a recorded output, except that an empty one reads as nothing |
| `WorkflowEngine.Engine.HandleGate` | src/cam/core/orchestrator/engine.py:231-283 | one pending gate request under the next id with the configured role, one unused token per channel under the ids after it, in channel order, each expiring the configured time after now, nothing else on the desk; then the move to awaiting approval, refused unless the run is running |
| `WorkflowEngine.Engine.Compensate` | src/cam/core/orchestrator/engine.py:291-296 | every registered compensation is tried once, the last registered first, whichever of them raise |
| `WorkflowEngine.Engine.ParkPass` | src/cam/core/orchestrator/engine.py:285-300 | compensations first, then the move to parked with the error stored |
| `WorkflowEngine.Engine.CommitStep` | src/cam/core/orchestrator/engine.py:163-187 | the step holds the handler's output, the empty one for none, as succeeded with one attempt more, the step's idempotency record holds the same output, and the run's current step is this one |
| `WorkflowEngine.Engine.FailPass` | src/cam/core/orchestrator/engine.py:189-221 | the failure is stored; a retryable one with attempts left ends in the refused write, any other parks |
| `WorkflowEngine.Engine.RunStep` | src/cam/core/orchestrator/engine.py:116-221 | one round of the loop does what the sequential model's round does, in every branch |
| `WorkflowEngine.Engine.WalkSteps` | src/cam/core/orchestrator/engine.py:106-229 | the loop over a snapshot taken once equals the sequential walk over the live steps |
| `WorkflowEngine.Engine.Execute` | src/cam/core/orchestrator/engine.py:76-229 | for any run, lock answer and handler behaviour the stores and the ending are exactly those read off the state before the call: what each step, record, the current step, the error, the desk, the invocations and the compensations become |
| `WorkflowEngine.ResolveGate` | src/cam/core/orchestrator/gates.py:141-252 | the refusal code of each guard in order with what it changes, or the stored decision, the decided gate, the spent token and where the run and its gate step go |
| `WorkflowEngine.RecordRuling` | src/cam/core/orchestrator/gates.py:217-250 | the decision is stored and the gate flipped before the run transition, whose refusal takes neither back |
| `WorkflowEngine.Start` | src/cam/core/orchestrator/triggers.py:28-91 | an unregistered workflow changes nothing; a non-empty key on record, the idempotency key before the trigger's, changes nothing and answers the run stored under it; otherwise the run is queued with one pending step per declared name, the key stands for it, and nothing else changes |
| `WorkflowEngine.RecoverySweep` | src/cam/core/orchestrator/recovery.py:37-62 | executes exactly the queued and running runs, once each, in stored order, each from the stores the one before left, and names exactly those |
| `WorkflowPass.ExecuteIff` | src/cam/core/orchestrator/engine.py:76-300 | a description of execute by the first step it does not get past, in terms of the stored state and the handlers' answers only, holds of exactly one outcome, that of execute; current step, stored error, records, desk and endings included |
| `WorkflowPass.ExecuteStoresOutputs` | src/cam/core/orchestrator/engine.py:163-187 | after execute every step it invoked and stored succeeded holds what its handler returned, the empty output for none, and its record holds the same; no other output and no other record differs |
| `WorkflowDesk.OpenGateAsks` | src/cam/core/orchestrator/engine.py:241-265 | opening a gate adds exactly the pending request and one token per channel expiring the configured time after now, whatever the desk held |
| `WorkflowDesk.TokenLifetime` | src/cam/core/orchestrator/gates.py:171-174 | a token brought back before anything else happened to its gate is refused as expired exactly if more than the configured time passed, and decides if not and the actor has the asked role, which carries approval |
| `WorkflowDesk.ResolvesIff` | src/cam/core/orchestrator/gates.py:158-252 | a description of resolve by the token, gate and run stored before the call holds of exactly one outcome: 401 and an unspent 409 change nothing, 404, 409 for a decided gate and 403 for a wrong role spend the token, and everything else decides, also where the run's transition is then refused |
| `WorkflowStarts.StartIff` | src/cam/core/orchestrator/triggers.py:28-91 | a description of starting a run by the registry, the key and the stored keys holds of exactly one outcome |
| `WorkflowStarts.KeyAnswers` | src/cam/core/orchestrator/store.py:45-53 | once a start stored a run under a non-empty key, every later start with that key answers that run and changes nothing, whatever happened in between |
| `WorkflowStarts.KeyAddsOnce` | src/cam/core/orchestrator/store.py:45-53 | in every history a non-empty key is given to at most one run |
| `WorkflowStarts.RunsOnlyStarted` | src/cam/core/orchestrator/store.py:45-53 | only a start of a registered workflow under a key not on record adds a run |
| `WorkflowSweeps.SweepIs` | src/cam/core/orchestrator/recovery.py:37-62 | a sweep is one execution of each queued or running run, in stored order, each from the state the ones before it left |
| `WorkflowRuns.WalkOnlyRun` | src/cam/core/orchestrator/engine.py:95-229 | a pass over one run changes no other run, step or dedupe key |
| `WorkflowRuns.WalkRunning` | src/cam/core/orchestrator/engine.py:116-229 | a pass over a running run ends completed, at a gate, parked, or still running with a strictly smaller attempt budget, and keeps succeeded steps first |
| `WorkflowRuns.WalkParked` | src/cam/core/orchestrator/engine.py:101-104 | executing a parked run is not refused at the start; it ends in a refused transition with the run still parked |
| `WorkflowRuns.WalkStill` | src/cam/core/orchestrator/engine.py:101-131 | executing a waiting, rejected or succeeded run invokes nothing and raises; at a gate it leaves one more gate request |
| `WorkflowEffects.WalkCalls` | src/cam/core/orchestrator/engine.py:156-199 | attempts equal handler invocations step by step, and no handler of another run is invoked |
| `WorkflowEffects.ParkCompensates` | src/cam/core/orchestrator/engine.py:285-300 | a pass that parks has tried the reverse of the registrations of the steps that succeeded in it |
| `WorkflowHistory.StartInv` | src/cam/core/orchestrator/triggers.py:51-91 | starting a run under a fresh id keeps the invariant of all stores |
| `WorkflowHistory.ResolveAllOrNothing` | src/cam/core/orchestrator/gates.py:158-252 | a resolve call adds one decision and flips one gate, even when the run transition is refused, or changes neither and touches no run; exactly when the first |
| `WorkflowHistory.HistoryInv` | src/cam/core/orchestrator/store.py:45-180 | every history of starts, executions, resolutions and sweeps keeps the invariant of all stores |
| `WorkflowTheorems.DecisionsMatchGates` | src/cam/core/orchestrator/gates.py:181-234 | after every history decisions and decided gates correspond one to one, each decision with its own used token of that gate and an actor of exactly the required role with gate.approve |
| `WorkflowTheorems.RejectionIsFinal` | src/cam/core/orchestrator/states.py:36-56 | once rejected, a run keeps status and steps, its first unfinished step is a gate, and none of its handlers is invoked again, whatever follows |
| `WorkflowTheorems.SweepTouchesOnlyRecoverable` | src/cam/core/orchestrator/recovery.py:37-62 | a sweep leaves every waiting, parked or finished run and its handlers alone |
| `WorkflowTheorems.SweepProgress` | src/cam/core/orchestrator/recovery.py:37-62 | a sweep that leaves a run running has strictly decreased the attempts left to its unfinished handler steps |
| `WorkflowTheorems.SweepsSettle` | src/cam/core/orchestrator/recovery.py:37-62 | more sweeps than attempts left, however handlers answer, leave the run neither queued nor running |
| `WorkflowTheorems.FreshBudget` | src/cam/core/orchestrator/triggers.py:73-83 | a fresh run has at most five attempts per declared step |
| `WorkflowLimits.HandlersInvokedWithinLimit` | src/cam/core/orchestrator/engine.py:189-221 | over every history that never drives the run while parked, each of its handlers is invoked at most five times |
| `WorkflowOverrun.WalkAttempts` | src/cam/core/orchestrator/engine.py:116-199 | a pass over a running or parked run invokes the handler it stands at exactly once more, and later ones at most once and for the first time |
| `WorkflowOverrun.PastLimitIff` | src/cam/core/orchestrator/engine.py:189-221 | an operation takes a handler past the limit, or further past it, exactly if it drives the run while the run stands at that handler with five attempts or more |
| `WorkflowOverrun.LimitPassedIff` | src/cam/core/orchestrator/engine.py:189-221 | over every history a handler is invoked more than five times exactly if some operation drove its run while standing at it with its attempts used up |
| `WorkflowWitnesses.InvokedAnyNumberOfTimes` | src/cam/core/orchestrator/engine.py:101-104 | for every n a history of n executions invokes one handler n times |
| `WorkflowLimits.ParkedRunIsInvokedAgain` | src/cam/core/orchestrator/engine.py:101-104 | executing a parked run invokes the handler it stopped at exactly once more, whatever its attempts |
| `WorkflowLimits.OldApprovalRevivesParked` | src/cam/core/orchestrator/gates.py:244-250 | approving a gate request that a parked run left pending sets the run running |
| `WorkflowWitnesses.ParkedRunRevived` | src/cam/core/orchestrator/gates.py:244-250 | a concrete history that parks with a second request pending, whose approval sets the run running |
| `WorkflowLimits.RetryableFailureRaises` | src/cam/core/orchestrator/engine.py:201-216 | execute on a queued or running run raises, the run left running, exactly when it stopped at a retryable failure with attempts left |
| `WorkflowLimits.ExecuteRaisesIff` | src/cam/core/orchestrator/engine.py:201-216 | the same read off before the call: the first unfinished step that is a gate or raises is a handler raising retryably, with an attempt left after this one |
| `WorkflowLimits.ParkUndoesThisPass` | src/cam/core/orchestrator/engine.py:285-300 | execute tries exactly the reversed registrations of the steps that succeeded in this pass when it parks, the failing step's own excluded, and none otherwise |
| `TokenFormat.DecodeEncode` | src/cam/core/orchestrator/gates.py:40-41 | base64url decoding inverts encoding for every byte string |
| `TokenFormat.EncodeIs` | src/cam/core/orchestrator/gates.py:40-41 | symbol k of an encoding is the base64url alphabet's for bits 6k to 6k + 5 of the bytes |
| `TokenFormat.PaddingRoundTrip` | src/cam/core/orchestrator/gates.py:103-106 | restoring the padding undoes stripping it for every length; what is left is dot-free and four thirds as long, rounded up |
| `TokenFormat.SplitIs` | src/cam/core/orchestrator/gates.py:96-99 | the split gives two parts exactly at the first dot |
| `TokenFormat.VerifyIs` | src/cam/core/orchestrator/gates.py:90-109 | a token verifies to a payload exactly if it is dot-free text decoding to it, a dot, and the signature of that text |
| `TokenFormat.TokenRoundTrip` | src/cam/core/orchestrator/gates.py:65-109 | verifying an issued token returns its payload, for every payload and signing function |
| `AuditLog.AuditService.Record` | src/cam/core/audit/service.py:58-115 | appends one row holding the entry, the latest hash or genesis, and the hash of exactly both; keeps ids ascending and an intact chain intact |
| `AuditLog.AuditService.Verify` | src/cam/core/audit/service.py:117-155 | intact exactly if every row names the hash before it and carries the hash of its whole content; otherwise the id of the first row that does not |
| `AuditLog.IntactIffRecorded` | src/cam/core/audit/service.py:58-155 | a log verifies exactly if recording its entries in order produces it |
| `AuditLog.RecordAll` | src/cam/core/audit/service.py:58-115 | recording entries one call after another on an empty log leaves exactly their recording, under ascending ids |
| `AuditLog.IntactIffReplayed` | src/cam/core/audit/service.py:58-155 | a log verifies exactly if, ids apart, it is what recording its entries one after another leaves |
| `AuditLog.TamperEvidence` | src/cam/core/audit/service.py:37-39 | two verifying logs with the same last hash agree in length and every hashed field, or two contents among their rows hash alike or one hashes to genesis; nothing is assumed of the hash |
| `AuditLog.EditLocatedIff` | src/cam/core/audit/service.py:134-151 | an edit of any field of a stored row, its hashes kept, is located exactly there unless the old and new content hash alike, and is not noticed if they do |
| `AuditLog.EditLocated` | src/cam/core/audit/service.py:134-151 | under an injective hash every edit of any field of any row, its hash kept, is located exactly there |
| `AuditLog.LastHashFixesLog` | src/cam/core/audit/service.py:117-155 | under an injective hash that never takes the genesis value, two verifying logs have the same last hash exactly if they agree on every field of every row |
| `AuditLog.GenesisIs` | src/cam/core/audit/service.py:28 | the chain starts from sixty-four zeros |
| `AuditLog.HashesDistinct` | src/cam/core/audit/service.py:132-153 | along a verifying log without collisions all hashes and genesis are pairwise distinct |
| `AuditLog.PrefixIntact` | src/cam/core/audit/service.py:128-155 | truncation at the end goes undetected |
| `AuditLog.DeletionLocated` | src/cam/core/audit/service.py:148-151 | deleting a row other than the last is located at the row after it |
| `AuditLog.SwapLocated` | src/cam/core/audit/service.py:148-151 | swapping two rows is located at the earlier one |
| `AuditLog.ReplacementLocated` | src/cam/core/audit/service.py:148-151 | a changed row is located there if it does not link and at the next row otherwise; only relinking the last row goes undetected |
| `AuditLog.InsertionLocated` | src/cam/core/audit/service.py:148-151 | an inserted row is located there if it does not link and at the next row otherwise; only a linking row at the end goes undetected |
| `Holidays.NthWeekdayCorrect` | src/cam/core/services/deadline/calendar.py:26-33 | in the asked year the result is exactly the date of that month and weekday with n such weekdays up to it |
| `Holidays.NthInYear` | src/cam/core/services/deadline/calendar.py:31-33 | for counts from 1 to 52 the month-only check never lets a date of another year through |
| `Holidays.NthWeekdayExists` | src/cam/core/services/deadline/calendar.py:26-33 | the first to fourth occurrences always exist, in their seven days of the month |
| `Holidays.LastWeekdayCorrect` | src/cam/core/services/deadline/calendar.py:36-41 | the result is exactly the date of that month and weekday with none later in the month |
| `Holidays.ObservedNear` | src/cam/core/services/deadline/calendar.py:44-50 | a Saturday moves a day back, a Sunday a day on, others stay; the result is a weekday |
| `HolidayTable.EntrySlot` | src/cam/core/services/deadline/calendar.py:53-68 | every entry of every year exists, is a weekday and lies in its own few days of the year |
| `HolidayTable.EntryYear` | src/cam/core/services/deadline/calendar.py:53-68 | an entry lies in the asked year unless it is New Year's Day of a year beginning on a Saturday, which is then 31 December before |
| `HolidayTable.EntryIs` | src/cam/core/services/deadline/calendar.py:53-68 | each of the eleven entries is the one date of that weekday in its seven days of the month, or the day on which its fixed date is observed |
| `HolidayTable.HolidaysAre` | src/cam/core/services/deadline/calendar.py:53-68 | the table of a year holds exactly those eleven days |
| `HolidayTable.ElevenHolidays` | src/cam/core/services/deadline/calendar.py:53-68 | exactly eleven distinct dates for every year, all weekdays, all in the year but for that exception |
| `HolidayTable.ChristmasToNewYear` | src/cam/core/services/deadline/calendar.py:56-66 | Christmas Day and the next New Year's Day are observed exactly a week apart |
| `HolidayTable.MissedHolidays` | src/cam/core/services/deadline/calendar.py:107-110 | a holiday of some year goes unrecognised in its own year's table exactly on Fridays that are 31 December |
| `HolidayTable.MissedNewYear2022` | src/cam/core/services/deadline/calendar.py:107-110 | 31 December 2021, observed for New Year 2022, is a Friday that its own year does not list |
| `Calendar.BusinessOnMissedHoliday` | src/cam/core/services/deadline/calendar.py:107-110 | the calendar calls that observed holiday a business day |
| `HolidayTable.RecognisedApart` | src/cam/core/services/deadline/calendar.py:53-68 | recognised holidays are at least seven days apart, also across the year's end |
| `BusinessDays.FourInSeven` | src/cam/core/services/deadline/calendar.py:107-110 | any seven consecutive days hold at least four business days |
| `BusinessDays.NextIsFirst` | src/cam/core/services/deadline/calendar.py:112-116 | the next business day is the first after the date and at most four days on |
| `BusinessDays.PreviousIsLast` | src/cam/core/services/deadline/calendar.py:118-122 | the previous business day is the last before the date and at most four days back |
| `BusinessDays.AddIsLeast` | src/cam/core/services/deadline/calendar.py:124-133 | adding n is exactly the least day with n business days after the start |
| `BusinessDays.SubtractIsGreatest` | src/cam/core/services/deadline/calendar.py:124-133 | taking n away is exactly the greatest day with n business days from it up to the start |
| `BusinessDays.AddComposes` | src/cam/core/services/deadline/calendar.py:124-133 | moves in the same direction add up |
| `BusinessDays.AddMonotone` | src/cam/core/services/deadline/calendar.py:124-133 | a later start never gives an earlier result |
| `BusinessDays.AddInvertsOnlyFromBusinessDays` | src/cam/core/services/deadline/calendar.py:124-133 | moving n and back, n not zero, returns to the start exactly if the start is a business day |
| `BusinessDays.AddBounded` | src/cam/core/services/deadline/calendar.py:124-133 | n business days take between n days and seven days for every four of them, rounded up |
| `Calendar.IsBusinessDayCorrect` | src/cam/core/services/deadline/calendar.py:92-110 | the answer is right, and an error is raised exactly on a weekday outside 2020 to 2040 |
| `Calendar.IsBusinessDayIs` | src/cam/core/services/deadline/calendar.py:92-110 | Saturdays and Sundays are none; a weekday of 2020 to 2040 is one unless it is one of the eleven holidays of its year; any other weekday raises |
| `Calendar.AddBusinessDays` | src/cam/core/services/deadline/calendar.py:124-133 | the result is exactly the date up to which n business days are counted and before which fewer are, on either side, with holiday data for every weekday stepped on; otherwise it raises; it always ends |
| `Calendar.NextBusinessDay` | src/cam/core/services/deadline/calendar.py:112-116 | the same for one step on |
| `Calendar.PreviousBusinessDay` | src/cam/core/services/deadline/calendar.py:118-122 | the same for one step back |
| `Calendar.Adjust` | src/cam/core/services/deadline/calendar.py:135-147 | the date itself, or exactly the nearest business day on the side of the mode with holiday data for every weekday looked at; an unknown mode raises |
| `Calendar.AddedIs` | src/cam/core/services/deadline/calendar.py:124-133 | a result is given exactly if the walk is covered, is a date, and has the ordinal the arithmetic says |
| `Calendar.AddedIff` | src/cam/core/services/deadline/calendar.py:124-133 | moving n business days ends at a date exactly if counting day by day does, every weekday passed having holiday data |
| `Calendar.AdjustedIff` | src/cam/core/services/deadline/calendar.py:135-147 | adjusting by mode ends at a date exactly if it is the nearest business day on that side, every weekday looked at having holiday data |
| `Calendar.AdjustedIsNearest` | src/cam/core/services/deadline/calendar.py:135-147 | the adjusted date is the nearest business day on the chosen side, at most four days off |
| `Calendar.AdjustedTwice` | src/cam/core/services/deadline/calendar.py:135-147 | adjusting an adjusted date changes nothing, in every mode |
| `DueDate.ApplyOffset` | src/cam/core/services/deadline/compute.py:34-63 | the result is exactly the date to which years, then months, then weeks, then days, then business days lead, each stage by its own arithmetic and a date itself, at the same clock time and zone; it raises where there is none |
| `DueDate.LandedIff` | src/cam/core/services/deadline/compute.py:34-63 | the stages of an offset by their meaning: month index and day kept or 28, ordinals for weeks and days, counting for business days |
| `DueDate.DaysOnly` | src/cam/core/services/deadline/compute.py:53-56 | weeks and days alone move the ordinal by seven times the weeks plus the days, and succeed exactly if the date after the weeks and the final one are both in the years 1 to 9999 |
| `DueDate.StageOutOfRange` | src/cam/core/services/deadline/compute.py:53-56 | a final date in range does not suffice: one week on and seven days back from 31 December 9999 raises |
| `DueDate.AddMonthsIs` | src/cam/core/services/deadline/compute.py:45-52 | the month index moves by exactly the offset, the day is kept if the month has it and is 28 otherwise, and only leaving years 1 to 9999 fails |
| `DueDate.YearsAreMonths` | src/cam/core/services/deadline/compute.py:39-52 | a year offset is twelve times as many months, 29 February included |
| `DueDate.MonthsRoundTrip` | src/cam/core/services/deadline/compute.py:45-52 | going m months on and back is the identity exactly if the month landed in has the day, so always up to the 28th |
| `DueDate.MonthsCompose` | src/cam/core/services/deadline/compute.py:45-52 | month offsets add up for days up to the 28th |
| `DueDate.ComputeDueDate` | src/cam/core/services/deadline/compute.py:66-102 | missing trigger, unknown calendar, then dates without an answer are errors in that order; otherwise the trace names the inputs, the raw date to which the offset leads from the trigger value and the nearest business day by the rule's mode |
| `DueDate.DueIff` | src/cam/core/services/deadline/compute.py:66-102 | that description holds of exactly one answer |
| `DueDate.TraceReproduces` | src/cam/core/services/deadline/compute.py:90-102 | a rule rebuilt from the stored trace alone computes the same trace, raw and adjusted due date included |
| `DueDate.DueIsAdjusted` | src/cam/core/services/deadline/compute.py:81-84 | the due time keeps the trigger's clock time and zone, is the nearest business day on the chosen side of the raw date, and adjusting again leaves it |
| `DueDate.ReminderSide` | src/cam/core/services/deadline/compute.py:109-114 | a reminder fires strictly before the due time exactly if its amount is negative, in either unit, at the same clock time, within the unit's bound |
| `DueDate.FiresAt` | src/cam/core/services/deadline/compute.py:109-113 | a reminder fires exactly its number of days, or its n-th business day, after or before the due date, at the due clock time, or has no date |
| `DueDate.PreviewReminders` | src/cam/core/services/deadline/compute.py:105-122 | one preview per reminder in order, flagged before due exactly if the amount is negative, unless the calendar is unknown or some reminder has no date |
| `ReminderService.InMemoryScheduler.Cancel` | src/cam/core/services/deadline/schedule.py:61-62 | removes that arm and no other |
| `ReminderService.DeadlineStore.Store` | src/cam/core/services/deadline/schedule.py:85-89 | files the deadline under its id and, unless the key is empty, under its key |
| `ReminderService.ArmReminders` | src/cam/core/services/deadline/schedule.py:182-215 | makes the reminders in the rule's order up to the first without a date and arms those not past on both paths, at their fire times |
| `ReminderService.ToolDeadlineSchedule` | src/cam/core/services/deadline/schedule.py:132-233 | store, arms and outcome in every branch, as ReminderCalls.ScheduleIff describes them: existing, failed, past due, failed half-way, created |
| `ReminderService.FireReminder` | src/cam/core/services/deadline/firing.py:60-116 | store, deliveries, dedup keys and outcome as ReminderCalls.FireIff describes them, with and without Redis and with failing delivery |
| `ReminderService.EscalateDeadline` | src/cam/core/services/deadline/firing.py:131-173 | the level is stored one higher and returned; an unknown deadline gives 0 |
| `ReminderService.MarkDone` | src/cam/core/services/deadline/firing.py:181-214 | exactly the arms of armed reminders are cancelled and those reminders skipped |
| `ReminderCalls.ScheduleIff` | src/cam/core/services/deadline/schedule.py:132-233 | the deadline on file and errors without effect; a past-due one flagged without reminders; otherwise each reminder at its time under its key, armed twice if not past, up to the first without a date, and if there is none the deadline filed with all of them in firing order, ties in the rule's order |
| `ReminderCalls.FireIff` | src/cam/core/services/deadline/firing.py:60-116 | declined without effect if the key was seen, the deadline is unknown or its first reminder with the key is not armed; failing delivery has no effect; otherwise one delivery, every reminder of the key fired, the key seen where Redis is present |
| `ReminderCalls.EscalateIff` | src/cam/core/services/deadline/firing.py:131-173 | the next level is answered and stored and nothing else changes; an unknown deadline answers 0 |
| `ReminderCalls.DoneIff` | src/cam/core/services/deadline/firing.py:181-214 | no reminder is left armed, the armed ones are skipped and exactly their arms cancelled, and nothing else changes |
| `ReminderLifecycle.MarkFiredEvolves` | src/cam/core/services/deadline/firing.py:97-102 | firing moves all reminders with the key, every one of them armed before, to fired, and nothing else |
| `ReminderLifecycle.MadeIs` | src/cam/core/services/deadline/schedule.py:182-215 | each reminder made is the one for its position, and making stops exactly at the first offset without a date |
| `ReminderLifecycle.SortIs` | src/cam/core/services/deadline/schedule.py:221-230 | the stored reminders are the made ones permuted into firing order |
| `ReminderTheorems.ScheduleInv` | src/cam/core/services/deadline/schedule.py:132-233 | scheduling keeps the desk's invariant in every branch |
| `ReminderTheorems.HistoryInv` | src/cam/core/services/deadline/firing.py:60-214 | every history keeps it: an arm of a stored deadline is live exactly while its reminder is armed or fired, a reminder is delivered exactly if marked fired, one deadline per key |
| `ReminderTheorems.DeliveredAtMostOnce` | src/cam/core/services/deadline/firing.py:83-102 | over every history each reminder of each deadline is delivered at most once |
| `ReminderTheorems.StepPreserves` | src/cam/core/services/deadline/firing.py:97-205 | no call loses a deadline; only the level, upwards, and statuses from armed to fired or skipped change |
| `ReminderTheorems.HistoryPreserves` | src/cam/core/services/deadline/firing.py:97-205 | the same between any two points of a history |
| `ReminderTheorems.LevelCountsEscalations` | src/cam/core/services/deadline/firing.py:139-145 | a deadline's level is the number of escalation calls that found it |
| `ReminderArms.StopsShort` | src/cam/core/services/deadline/schedule.py:182-215 | making stops short with something armed exactly if some offset has no date and one before the first such has a time not past |
| `ReminderArms.ArmsExactIffNoLeak` | src/cam/core/services/deadline/schedule.py:182-230 | after a history the live arms are exactly those of reminders armed or fired if and only if no scheduling call in it failed half-way with something armed |
| `ReminderArms.ScheduleIdempotent` | src/cam/core/services/deadline/schedule.py:152-156 | a deadline stored under a key that is not empty is what every later scheduling call with that key returns, changing nothing, whatever happened between |
| `ReminderArms.ScheduleStores` | src/cam/core/services/deadline/schedule.py:161-230 | a call reporting a new or a past-due deadline has stored it under its key, flagged exactly if past due |
| `ReminderArms.FireArmed` | src/cam/core/services/deadline/firing.py:70-116 | firing an armed reminder delivers it unless its dedup key is set or the notification fails, and then nothing changes |
| `ReminderArms.NeverSuppressed` | src/cam/core/services/deadline/firing.py:70-76 | for a deadline with a key, the dedup key is never set while the reminder is armed |
| `ReminderArms.SuppressedIff` | src/cam/core/services/deadline/firing.py:70-105 | over every history an armed reminder is declined with Redis present exactly if its key was delivered with Redis present, for this or another deadline, and has not expired; only for deadlines without a key |
| `FiringProtocol.DeliveryPossibleIff` | src/cam/core/services/deadline/firing.py:60-116 | in every state of every interleaving a further delivery of a key can come exactly if it is stored as armed, or a call under way is about to deliver it or holds a record in which it is armed |
| `FiringProtocol.SerialDeliversOnce` | src/cam/core/services/deadline/firing.py:83-102 | calls that do not overlap, none crashing right after its delivery, deliver each key at most once |
| `FiringProtocol.RedundantArmsDeliverTwice` | src/cam/core/services/deadline/firing.py:70-105 | two overlapping calls for one reminder, with Redis present, deliver it twice |
| `FiringProtocol.OverlapRearms` | src/cam/core/services/deadline/firing.py:97-102 | firing two reminders at once leaves a delivered one armed again and an escalation forgotten, with no call under way |
| `FiringRefinement.HistoryIsInterleaving` | src/cam/core/services/deadline/firing.py:60-214 | from any point of a sequential history at which a deadline is stored, what the rest makes of its record, deliveries and dedup keys is what some interleaving of calls on it reaches |
| `ReminderArms.CreatedMatchesPreview` | src/cam/core/services/deadline/schedule.py:182-230 | a created deadline's reminders are sorted, armed on two paths exactly if not past, and have the offsets and times of the preview, each as often |
| `ReminderWitnesses.FailedScheduleLeaksArms` | src/cam/core/services/deadline/schedule.py:182-215 | one call that fails and leaves live arms belonging to no deadline |
| `ReminderWitnesses.SharedKeySuppressesReminder` | src/cam/core/services/deadline/firing.py:70-76 | two deadlines without a key: delivering the first one's reminder declines the second one's |
| `Breaker.ConnectorHealth.RecordSuccess` | src/cam/connectors/health.py:59-68 | the breaker is healthy with no failures counted |
| `Breaker.ConnectorHealth.RecordFailure` | src/cam/connectors/health.py:70-87 | one more failure; half-open reopens, and healthy or degraded open at the threshold |
| `Breaker.ConnectorHealth.ReadState` | src/cam/connectors/health.py:42-45 | reading turns open into half-open exactly if the cool-down has passed |
| `Breaker.StateFollowsStreak` | src/cam/connectors/health.py:59-100 | after every event history, for every threshold: open or half-open exactly if the failures since the last success reach it, degraded exactly between half of it and it, healthy otherwise |
| `Breaker.LastErrorIs` | src/cam/connectors/health.py:59-73 | after every history the error reported is that of the last failure, and none after a success |
| `Breaker.OpenRemembersOpening` | src/cam/connectors/health.py:76-84 | an open breaker was opened by a failure at the time it remembers and has been open since |
| `Breaker.HalfOpenHasCooledDown` | src/cam/connectors/health.py:93-100 | a half-open breaker stayed open from a failure to a read at least the cool-down later, and only reads came since |
| `Breaker.OpenUntilCooledDown` | src/cam/connectors/health.py:93-100 | a read of an open breaker finds it half-open exactly if the cool-down has passed |
| `OutboundClient.ExecuteWithRetry` | src/cam/connectors/middleware.py:182-221 | answer, attempts and breaker are those of the attempt at which the loop must end; it always ends |
| `OutboundClient.RetryIff` | src/cam/connectors/middleware.py:182-221 | the loop ends at the first attempt that is out of time, answered, not retryable, the last allowed or followed by a passed deadline, with the error for that case and one breaker failure per failed attempt, plus a fatal one when the deadline passed before an attempt; exactly one outcome fits |
| `OutboundClient.RequestIff` | src/cam/connectors/middleware.py:117-238 | open breaker first, with its last error; then the record of a completed write under the given or derived key; then the loop, of which an answer alone clears the breaker and is recorded, for a write with a non-empty key; reads and errors leave the records alone; exactly one outcome fits |
| `OutboundClient.OutboundClient.Send` | src/cam/connectors/middleware.py:117-152 | refusal, replay, answer or error, the new breaker and the new records, as OutboundClient.RequestIff describes them |
| `OutboundClient.RetryIs` | src/cam/connectors/middleware.py:182-221 | at most the allowed attempts, all but the last retryable failures, an answer is the last attempt's, and each failed attempt is one breaker event, plus one when the deadline passed before an attempt |
| `OutboundClient.RequestBounded` | src/cam/connectors/middleware.py:138-163 | no attempt when the breaker is found open or the write is on record, else at most max(1, max_attempts); the open breaker refuses replays too |
| `OutboundClient.BreakerIsLogged` | src/cam/connectors/middleware.py:117-238 | after every sequence of requests the breaker is what its event history makes it |
| `OutboundClient.RefusedIff` | src/cam/connectors/middleware.py:158-163 | a request is refused exactly if the failure streak has reached the threshold, nobody has found the breaker cooled down, and the cool-down still runs |
| `OutboundClient.RetryIgnoresBreaker` | src/cam/connectors/middleware.py:195-221 | attempts and answer of the retry loop do not depend on the breaker |
| `OutboundClient.SecondProbeIff` | src/cam/connectors/middleware.py:195-221 | a request that finds the breaker half-open makes a second attempt exactly if the first fails retryably, the policy allows another and the deadline has passed neither then nor when it is due |
| `OutboundClient.SingleProbeIff` | src/cam/connectors/health.py:5-8 | every request of a policy keeps to one probe, for all vendors and forward clocks, exactly if the policy allows one attempt or no time |
| `OutboundClient.HalfOpenProbedTwice` | src/cam/connectors/middleware.py:182-221 | a concrete history in which a request finds the breaker half-open and makes two attempts |
| `OutboundClient.OverlappingProbesIff` | src/cam/connectors/middleware.py:158-163 | overlapping requests that read a half-open breaker within one cool-down are all let through exactly if none reads after a failure of another was recorded |
| `OutboundClient.OneAnswerPerKey` | src/cam/connectors/middleware.py:142-151 | in every sequence of requests the vendor answers at most one write per key that is not empty; later ones are refused or get that answer back without an attempt |

## Left out

- ProtocolTheorems.AtMostOnce: assumes that the idempotency store does not raise, which is necessary; OneOwnerOneSuccess covers the rest.
- ProtocolTheorems.OneOwnerOneSuccess: the run lock is taken as absent, so nothing is claimed of lock expiry; the in-memory store's calls are the atomic moves, and the Postgres store, which reads and writes without a row lock, is not part of this model.
- HistoryRefinement.HistoryIsInterleaving: the current step, stored error, channels and expiry times have no counterpart in the protocol, where an expired token is one that is not presented.
- WorkflowLimits.HandlersInvokedWithinLimit: a sufficient condition that is easy to read; LimitPassedIff has the exact one.
- WorkflowEngine.ResolveGate: signatures are ideal, so exactly the issued payloads verify and a verified token is always stored; a gate whose required role names no role refuses with 403 where the code raises ValueError; quorum, which the code never reads, is absent.
- WorkflowEngine.Start: context validation and caller-supplied run ids that are already in use are not modelled.
- WorkflowEngine.RecoverySweep: the variant that hands runs to a queue instead of executing them is not modelled.
- WorkflowEngine.Engine.Execute: step error details, timestamps, the outputs passed to handlers, spans and audit calls are not modelled; a handler missing from the workflow counts as one that raises.
- TokenFormat.VerifyIs: the payload is a byte string, so JSON is not modelled, and decoding refuses characters outside the alphabet where Python's decoder skips them.
- AuditLog.AuditService.Verify: only the whole log is verified; a partial range starts from genesis in the code and is not meaningful. Serialisation and hash together are an arbitrary function of the previous hash and the hashed fields.
- Holidays.NthWeekdayCorrect: speaks of results in the asked year; NthInYear shows that counts from 1 to 52 give no other, and no caller passes more than 4.
- Calendar.AddBusinessDays: which exception is raised, missing holiday data or date overflow, is not distinguished; the version hash of the calendar is not modelled.
- DueDate.ComputeDueDate: zones are fixed offsets from UTC, so daylight-saving rules and values without a zone are not modelled; rule references and engine versions are left out of the trace.
- ReminderService.EscalateDeadline: the escalation notification and the missed-deadline log entry are not modelled.
- ReminderService.MarkDone: cancelling never raises, as in the in-memory scheduler.
- ReminderService.ToolDeadlineSchedule: matter ids, names, rule references and audit records are not modelled; identifiers are fresh by construction.
- OutboundClient.OneAnswerPerKey: records do not expire, and one client's requests do not overlap; OverlappingProbesIff speaks of overlapping requests at the breaker only.
- OutboundClient.ExecuteWithRetry: the length of each wait, jitter included, appears only through the clock readings.
- ProtocolStranded.StrandedUnrecorded: one direction, for any state; SucceedsIff has both for runs that nobody drives.
- ProtocolOutcome.SucceedsIff: the role a gate requires is chosen by the workflow, so a gate configured with a role that may not decide is outside its positive half; workers under way are covered by StrandedUnrecorded only.
- FiringProtocol.DeliveryPossibleIff: one deadline's calls interleave; the store as a whole and the scheduler's arms are covered by the sequential theorems only.
- Redis run lock, Celery tasks, SQL repositories, migrations and unit of work: plumbing around the modelled operations.
- Intake and status workflows, webhooks, reconciler, dead-man monitor, quality checks, privilege gate, classifier, namer, ACL builder, domain packs: glue or single branches that would only add easy members.
- Extraction, OCR, language models, PDF and template rendering, cryptography wrappers, observability, command line and MCP surfaces: calls into code outside the repository or user interface.
