# Verified model of the agent ledger's durable state machines

This project models the two durable state machines of the repository and proves what they are for.

**The Go runtime store and everything that runs over it** (`go/store.go`, `go/tools.go`, `go/runtime.go`,
`go/types.go`, `go/evidence.go`, `go/timetravel.go`). `Store` holds the data of the store and the effect of each
method as a function; the class `JSONStores.JSONStore` has the methods themselves, statement by statement, each
proved to have exactly that effect. A *run of the store* is any sequence of calls by any number of clients.
`Gateway` is the tool gateway as calls in flight, each a program counter over atomic store calls, with crashes and
other clients in between; `ToolGateways.ToolGateway.Call` is the code of one call, proved to take the steps of that
machine when nothing comes in between. `Runner` does the same for `RunOnce`. On top of these:

- what a call does when run alone, told from the request and the store: result, tool runs, ledger entry, costs, events;
- at most one tool run per idempotency key, and the allowance when an entry is declared to have had no effect;
- every value returned for a key is the value of its one run;
- a denied or unsandboxable tool never runs, nor anything under a key whose approval was denied, a budget of `m` is overrun by at most `k - 1` with `k` calls at once,
  and exactly which requests can run their tool with nothing granted;
- a new step is claimable, its attempts are its claims, and the log tells its status; ledger, approvals and costs are
  accounted for by the calls that made them; a worker commits exactly what its agent wrote;
- state is the fold of the log, versions are gapless, commits are serial, refused lease tokens stay refused, recovery
  spares valid leases, cancellation is complete, and sticky exactly until a call reopens the run;
- time travel, cost attribution and the replay plan agree with the store, with the exact condition where they do not
  always agree.

**The SQLite evidence sidecar** (`rust/src/sqlite_evidence.rs`). `Evidence` holds the tables and the effect of each
transaction; `EvidenceStores.EvidenceStore` has the methods. On top: one owner per run and per step across all
tables, no accepted event dropped or reordered, the incremental step index equal to the recomputation, batch size
irrelevant, turn-atomic and idempotent retention, the export and replay round trip for every reachable store, and
unique decoding of the hashed string.

## Findings

Where the code does not do what its names or documents suggest, the model follows the code and the exact
condition is proved.

- `mergePatch` is JSON Merge Patch (section 2 of RFC 7396) and idempotent exactly when no null is copied inside a
  fresh nested object (`Json.MergePatchIsRfc7396Iff`, `Json.MergePatchIdempotentIff`, `Json.LeakedNull`).
- Time travel lays patches over the state without deleting or merging, so it shows the store's states exactly when
  every patch is flat: no null, and a nested object names every key of the object it lands on
  (`TimeTravel.TravelAgreesIffFlat`, `TimeTravel.MergeReplacesIff`). A run created with a key and then patched to
  delete it still shows the key (`TimeTravel.TravelKeepsDeletedKey`).
- The replay plan misses a pending entry whose slug equals that of an earlier reported entry. With identifiers of
  the form the store draws that cannot happen (`ReplayPlan.ReplaySafetyExact`, `ReplayPlan.ShadowedPendingEntry`).
- One plus the declarations of no effect bounds the runs of a tool only while calls on the key do not overlap. With
  up to `k` at once the bound is one plus `k` times the declarations, and it is attained for every `k` and every
  number of declarations (`AtMostOnce.ExecutionsBounded`, `GatewayLimits.RunBoundIsAttained`,
  `GatewayLimits.OverlapNeedsTheFactor`). So is the overrun of the budget (`GatewayLimits.BudgetBoundIsAttained`).
- `docs/ARCHITECTURE.md:95` promises that approval-required tools do not execute before approval; they can. A pending approval leaves the policy's answer as it was, so the
  first call under a key asks and the second runs the tool (`GatewayApproval.ApprovalIsNotWaitedFor`). A request's
  tool can run with nothing granted exactly when its input is good, the policy allows the tool, a sandbox it needs is
  configured, and its run and step have identifiers that can have been drawn (`GatewayApproval.RunsUngrantedIff`).
  `approvalRequired` is not part of that condition: only a tool the policy denies waits for a grant
  (`GatewayPolicy.DeniedToolNeedsGrant`).
- The sidecar recognises a retried event exactly while no prune removes it; after that it accepts the event again
  (`EvidenceRetries.RecognisedThroughoutIff`, `EvidenceRetries.PruneDecidesRetry`,
  `EvidenceRetries.PrunedEventIsAcceptedAgain`).
- An idempotency key tells its parts apart exactly as long as run, step and hash have no colon, as drawn identifiers and
  hexadecimal hashes have none (`GatewayKeys.KeysAreDistinct`, `GatewayKeys.ColonsAreConfused`).
- A missing step id and a step named `<none>` hash alike (`EvidenceHash.StepNamedNoneIsConfused`); apart from that
  the string determines the facts (`EvidenceHash.CanonicalDeterminesFacts`).
- `MarkRetry`, `MarkFailed` and `MarkWaitingHuman` take no lease and have no status guard, and a new external step
  can join a cancelled run. A call breaks the seal of a cancelled run exactly when it marks a step of that run with a
  status that is not terminal or creates a step in it (`StoreRuns.SealBreaksIff`, `StoreRuns.SealedThroughoutIff`,
  `StoreRuns.CancelledRunIsReopened`).
- Replaying a bundle without any event fails in the code by indexing an empty list; the model gives that case its
  own error. It arises exactly on the bundles of `EvidenceBundle.LacksEventsIff`, such as
  `EvidenceBundle.AnEmptyBundle`, and export never writes one.

## Assumptions

- Each store method and each SQL transaction is one atomic step. Flush, file and SQL I/O succeed.
- The clock is an input that does not run backwards and is positive; Go's store reads it in nanoseconds, the
  sidecar's events carry milliseconds, which survive division by 1000 and rounding back.
- `newID` gives non-empty identifiers that were never drawn or named to the store before (`Store.Allowed`).
- Run and step passed to `CommitStatePatch`, the marks and `RequestApproval` come from one claim; callers of
  `AppendEvent` do not forge the event types that carry state, nor, for `StoreLog.LogTellsTheStatus`, those that move
  steps. Nothing else is asked of callers.
- Methods of `JSONStore` that require every step to belong to a run, or approval identifiers to be unique, require
  what `StoreSteps.CallsKeepInv` and `IssuedIds.ReachableIdsAreUnique` prove of every reachable store.
- Hashes are uninterpreted functions, nowhere taken to be free of collisions. JSON is a datatype; the sidecar's text
  codec is exact (`Evidence.Lawful`).
- The nested values of a state or patch that are objects have Go's dynamic type `map[string]any`, as every value
  decoded from JSON has. `mergePatch` merges only that type: a caller that passes a nested `JSONObject` directly gets
  a replacement instead.
- `ReplayOverStore.SafeIffNothingPending` takes the identifiers that `ReserveLedger` draws to have the form of
  `newID("ledger")`.
- Amounts are exact reals. Policy and limits of a gateway do not change while its calls are in flight. The verdicts
  of the argument and result schemas are inputs.
- Lower-casing in `slug` is modelled as far as it can produce an ASCII letter or digit.

## Model

| member | source | states |
|---|---|---|
| `Json.MergePatchLoop` | go/types.go:292-308 | the updating loop computes the merge in whatever order the keys come |
| `Json.MergePatchIsRfc7396Iff` | go/types.go:292-308 | equals JSON Merge Patch (section 2 of RFC 7396) if and only if no null is copied with a fresh object |
| `Json.MergePatchIdempotentIff` | go/types.go:292-308 | applying a patch twice equals applying it once under exactly the same condition |
| `Json.NullFreePatchIsStandard` | go/types.go:292-308 | patches whose nested objects hold no null are standard and idempotent on every base |
| `Json.LeakedNull` | go/types.go:292-308 | a nested null survives the first application and disappears on the second |
| `Store.NextStepIsUnique` | go/store.go:163-175 | the step a claim picks does not depend on the order of the step map |
| `Text.SortIsUnique` | go/store.go:231-266 | sorting the step identifiers of a sweep has one result |
| `JSONStores.JSONStore.AppendEventLocked` | go/store.go:471-503 | appends one event numbered one past the log |
| `JSONStores.JSONStore.CreateRun` | go/store.go:115-134 | a run, its first step and the two events that open the log |
| `JSONStores.JSONStore.CreateExternalStep` | go/store.go:136-158 | a new pending step on the run's current version, or run not found |
| `JSONStores.JSONStore.NextStep` | go/store.go:163-178 | finds the oldest claimable step, identifiers breaking ties, or that there is none |
| `JSONStores.JSONStore.ClaimStep` | go/store.go:160-202 | leases the next step, says so in the log and returns the claim, or reports that none is runnable and changes nothing |
| `JSONStores.JSONStore.LoadState` | go/store.go:204-212 | session, state and version of the run; where logs are faithful, as they are in every reachable store, the state is the fold of the log and the version the number of its patches |
| `JSONStores.JSONStore.ValidateLeaseLocked` | go/store.go:807-819 | not found, stale or expired, in this order, otherwise the step |
| `JSONStores.JSONStore.Heartbeat` | go/store.go:214-229 | renews exactly the leases validation accepts |
| `JSONStores.JSONStore.RecoverExpiredLeases` | go/store.go:231-266 | releases the expired steps in sorted order and returns how many there were |
| `JSONStores.JSONStore.CancelRun` | go/store.go:268-312 | cancels the unfinished steps of a live run and returns how many there were |
| `JSONStores.JSONStore.CommitStatePatch` | go/store.go:314-347 | lease and version checks, then patch, completion and the two events; nothing on refusal |
| `JSONStores.JSONStore.ApplySystemStatePatch` | go/store.go:349-369 | merges the patch under the next version and logs it |
| `JSONStores.JSONStore.MarkWaitingHuman` | go/store.go:371-395 | leaves the step waiting for a human, without asking for a lease or a status; step not found otherwise |
| `JSONStores.JSONStore.MarkRetry` | go/store.go:397-427 | schedules the step for retry and logs the failure, without asking for a lease or a status; step not found otherwise |
| `JSONStores.JSONStore.MarkFailed` | go/store.go:429-459 | fails the step and logs the failure, without asking for a lease or a status; step not found otherwise |
| `JSONStores.JSONStore.ReserveLedger` | go/store.go:505-530 | returns the entry of a known key unchanged, reserves a new one |
| `JSONStores.JSONStore.UpdateLedger` | go/store.go:532-548 | overwrites status, error and response of a known key |
| `JSONStores.JSONStore.RequestApproval` | go/store.go:550-575 | returns the request of a known key unchanged, opens a new one |
| `JSONStores.JSONStore.FindApproval` | go/store.go:613-625 | the key under which an approval identifier is held; the empty key counts as none |
| `JSONStores.JSONStore.DecideApproval` | go/store.go:610-672 | records the decision and releases a step that is waiting for it |
| `JSONStores.JSONStore.RecordCost` | go/store.go:674-685 | adds the record and logs it |
| `StoreSteps.CallKeepsInv` | go/store.go:115-715 | every call keeps: steps and approvals belong to runs, tokens are unique, logs are faithful, commits are within attempts |
| `StoreSteps.CallsKeepInv` | go/store.go:115-715 | so does every sequence of calls by any clients |
| `StoreSteps.ReachableStoreIsFoldOfLog` | go/store.go:314-369 | in every reachable store a run's log is numbered 1..n, carries versions 1..StateVersion, and folds to the stored state |
| `StoreRuns.RunsMoveForward` | go/store.go:314-369 | logs only grow, versions never drop, state changes only with the version |
| `StoreRuns.CommitBuildsOnLoadedState` | go/runtime.go:73-116 | a commit on a loaded version replaces exactly the loaded state, whatever happened meanwhile |
| `StoreRuns.PassedVersionIsRefused` | go/store.go:325-327 | a version the run has passed is never committed on again |
| `StoreRuns.BaseVersionCommitsOnce` | go/store.go:314-347 | at most one commit succeeds per base version |
| `StoreRuns.PatchVersionsInOrder` | go/store.go:314-369 | later patches carry larger versions |
| `StoreRuns.EveryVersionIsLogged` | go/store.go:314-369 | every version from 1 to the current one has its patch in the log |
| `StoreRuns.RefusedForever` | go/store.go:807-819 | once a token is refused for a step it is refused at every later instant |
| `StoreRuns.RefusalKillsToken` | go/store.go:214-229 | every refusal a heartbeat or commit reports is final in this sense |
| `StoreRuns.TokenCommitsAtMostOnce` | go/store.go:314-347 | over any run of the store a lease token yields at most one successful commit |
| `StoreRuns.CommitsNeverExceedAttempts` | go/store.go:160-202 | the commits logged for a step never exceed its attempts |
| `StoreRuns.RecoveryOfEachStep` | go/store.go:231-266 | recovery releases exactly the expired steps it visits |
| `StoreRuns.RecoverySparesValidLeases` | go/store.go:231-266 | recovery never takes a lease validation would accept at that instant |
| `StoreRuns.LeaseWindow` | go/store.go:181-225 | a claimed or renewed lease is accepted exactly up to the seconds asked for |
| `StoreRuns.DecisionFreesItsStep` | go/store.go:610-672 | a decision frees exactly the waiting step: claimable when approved, failed with the reason when denied |
| `StoreRuns.MarkTakesTheLease` | go/store.go:371-459 | a mark ends every lease on the step, sets its status and touches no other step |
| `StoreRuns.CancelIsComplete` | go/store.go:268-312 | after cancelling a live run all its steps are terminal, exactly its unfinished steps changed, one event each |
| `StoreRuns.SealBreaksIff` | go/store.go:136-459 | a call breaks the seal of a run if and only if it marks a step of it with a status that is not terminal or creates a step in it |
| `StoreRuns.SealedThroughoutIff` | go/store.go:115-715 | over whole runs of the store a sealed run stays sealed if and only if no call reopens it |
| `StoreRuns.SealedForever` | go/store.go:160-347 | while no call reopens a cancelled run, no step of it is claimable and no lease on one is valid |
| `StoreRuns.RetryMarkReopens` | go/store.go:397-427 | any step whatever, of whatever status, becomes claimable by a retry mark |
| `StoreRuns.CancelledRunIsReopened` | go/store.go:397-427 | a run created, cancelled and then marked for retry has a claimable step again |
| `StoreLifecycle.CreatedStepIsClaimable` | go/store.go:115-134 | a run is created pending at version 0 with its initial state, and its first step can be claimed for that run and for any, by nobody leased |
| `StoreLifecycle.ExternalStepIsClaimable` | go/store.go:136-158 | so can a step added to a known run; it starts from the version of the run and puts the run back to pending |
| `StoreLifecycle.FirstStepIsPicked` | go/store.go:160-202 | in a store that held no step the first one created is exactly the step a claim picks |
| `StoreLifecycle.OldestStepIsPicked` | go/store.go:163-175 | the step a claim takes is the oldest it could take, the identifier that comes first deciding between equals |
| `StoreLifecycle.ClaimTakesTheStep` | go/store.go:176-201 | a claim makes the worker the owner under its token, adds one attempt and sets step and run running; no other step changes |
| `StoreLifecycle.CommitCompletesTheStep` | go/store.go:314-347 | a commit completes step and run on the next version under its checkpoint, or is refused and changes nothing |
| `StoreLifecycle.CallKeepsStep` | go/store.go:115-715 | no call changes the run, session or creation time of a step; a changed step is stamped, released unless at work or complete, and has one more attempt only if claimed |
| `StoreLifecycle.CallKeepsRun` | go/store.go:115-715 | no call changes the session or creation time of a run, and a changed run is stamped |
| `StoreLifecycle.ReachableStepsAreReleased` | go/store.go:160-459 | in every reachable store a step neither at work nor complete has no owner, lease or token, and each step is of the session of its run |
| `StoreLifecycle.AttemptsCountClaims` | go/store.go:176-185 | in every reachable store the attempts of a step are the claims made of it |
| `StoreLifecycle.RunStatusMoves` | go/store.go:115-672 | which calls move the status of a run, when, and to what; no other call does |
| `StoreLog.LogTellsTheStatus` | go/store.go:115-672 | in every reachable store the last event of a step that moves steps tells its status |
| `StoreRecords.LedgerTellsItsCalls` | go/store.go:505-548 | each ledger entry is what the first reservation of its key named, with status, error and response of the last update since |
| `StoreRecords.ApprovalsTellTheirCalls` | go/store.go:550-672 | each approval is what the first request under its key named, pending until decided and then as the last decision says |
| `StoreRecords.CostsTellTheirCalls` | go/store.go:674-695 | the costs of a run are the records made on it, in order |
| `StoreRecords.DecisionIsLogged` | go/store.go:610-672 | a decision logs itself and what it does to a step that waits for it |
| `StoreRecords.CancellationIsLogged` | go/store.go:268-312 | a cancellation logs first that it was asked for and last that the run is cancelled |
| `IssuedIds.ReachableIdsAreUnique` | go/store.go:505-575 | ledger and approval identifiers name one entry each in every reachable store |
| `Runner.CommitsAreSerial` | go/runtime.go:60-121 | over all interleavings of workers each successful run replaced exactly the state its agent was given, and no two replaced the same version |
| `Runner.RunsKeepSound` | go/runtime.go:60-121 | what a worker loaded stays true of the run until the run moves to a later version |
| `Runner.CommitsCarryTheWrites` | go/runtime.go:60-147 | over every interleaving each commit carries exactly the keys its own worker wrote between start and return, each with the last value |
| `Runner.WrittenValuesAreCommitted` | go/runtime.go:116-147 | so what was written last is in the state after the commit, a null removes its key, and keys not written stay as loaded |
| `Runner.SuccessIsCommitted` | go/runtime.go:60-121 | a worker that has returned reports success if and only if it committed |
| `Runner.ReturnSettlesTheStep` | go/runtime.go:98-120 | success completes the step, a missing approval leaves it waiting, a retryable error makes it claimable, any other error fails it |
| `Runner.ClaimIsLeased` | go/runtime.go:70-76 | its claim holds the step under its name for exactly the seconds of its lease |
| `Runner.AgentIsLogged` | go/runtime.go:90-148 | the start of the agent and each write are logged for its session and step, with its role and version |
| `Gateway.CheckTool` | go/tools.go:125-155 | an explicit denial always wins; a high-risk tool needs an explicit grant |
| `ToolGateways.DenialIsPermanent` | go/tools.go:113-123 | no sequence of policy settings lifts an explicit denial |
| `ToolGateways.AllowingOneToolClosesTheRest` | go/tools.go:107-111 | allowing a role its first tool denies it the tools that were merely not forbidden |
| `ToolGateways.SettersTakeEffect` | go/tools.go:107-155 | what a denial, an allowance and an allowed class do to the tool or class they name |
| `ToolGateways.SettersStayInTheirRole` | go/tools.go:107-155 | settings of one role leave the answers of every other alone |
| `ToolGateways.DefaultsDecide` | go/tools.go:125-155 | a role without rules gets the default of the class, and without one is refused the four high classes |
| `ToolGateways.PolicyEngine.AllowTool` | go/tools.go:107-111 | adds one allowed tool to the role |
| `ToolGateways.PolicyEngine.DenyTool` | go/tools.go:113-117 | adds one denied tool to the role |
| `ToolGateways.PolicyEngine.AllowRisk` | go/tools.go:119-123 | adds one allowed risk class to the role |
| `ToolGateways.ToolGateway.Call` | go/tools.go:284-470 | a call run alone takes the steps of the machine, each with the identifier, outcome and clock reading of its inputs; what that comes to is in the rows of `GatewayCalls` |
| `GatewayCalls.WorkingToolSucceeds` | go/tools.go:409-470 | a call that reaches its tool and whose tool works returns the value, ran it once, leaves the entry succeeded with the value, and adds one cost |
| `GatewayCalls.FailingToolIsHeld` | go/tools.go:410-439 | if the tool raises, gives a bad result or has no sandbox the call fails, nothing is charged and a managed entry waits for verification |
| `GatewayCalls.TakenKeyAnswers` | go/tools.go:382-402 | a taken key answers without running the tool: a success is replayed and charged, anything else refused |
| `GatewayCalls.RefusedCallDoesNothing` | go/tools.go:309-372 | the reasons a call is turned away, in order; the tool does not run and nothing changes but the approval that is opened |
| `GatewayCalls.RunningCallIsLogged` | go/tools.go:304-470 | the events such a call logs, in order |
| `GatewayCalls.EventsAreOfTheRequest` | go/tools.go:304-470 | a call changes no run, step or other log, and logs only events of its own session and step with the role of its agent |
| `GatewayCalls.SideEffectsAreReserved` | go/tools.go:303-460 | a tool with side effects never runs without an entry under its key, any other never touches the ledger |
| `GatewayCalls.SecondCallReplays` | go/tools.go:382-395 | a second call after a success gives the same value and does not run the tool |
| `GatewayCalls.SecondCallWaits` | go/tools.go:396-397 | a second call after a failure is refused and does not run the tool |
| `GatewayKeys.KeysAreDistinct` | go/tools.go:302 | requests share a key if and only if run, step, tool and hash agree, where run, step and hash have no colon |
| `GatewayKeys.ColonsAreConfused` | go/tools.go:302 | with a colon in the step two requests of different runs share a key |
| `ToolGateways.ToolGateway.Permission` | go/tools.go:322-365 | policy, approval request and approval decision, with the events they write; what they mean for the call is `GatewayCalls.RefusedCallDoesNothing` and `GatewayDenial.DenialHolds` |
| `ToolGateways.ToolGateway.TakeKey` | go/tools.go:374-406 | the answers to a reservation by the status of the entry |
| `ToolGateways.ToolGateway.Execute` | go/tools.go:477-509 | runs the tool's own function, or the executor between two events, or fails closed without one |
| `AtMostOnce.ExecutionsBounded` | go/tools.go:374-455 | with at most k calls on a key at once its tool runs at most 1 + k times the declarations of no effect |
| `AtMostOnce.RunsAtMostOnce` | go/tools.go:374-455 | under every interleaving and crash, without such a declaration the tool runs at most once per key |
| `AtMostOnce.RunsKeepBounded` | go/tools.go:374-455 | runs done, about to happen and reserved stay within the allowance at every step |
| `AtMostOnce.ReturnedValuesAreTheOneRun` | go/tools.go:382-395 | all values returned for a key are the value of its one run |
| `AtMostOnce.RunsKeepAgreed` | go/tools.go:374-470 | every value on its way to a caller or replayable from the ledger comes from a run of that key or another client |
| `GatewayLimits.RunBoundIsAttained` | go/tools.go:374-409 | for every k and every number of declarations some run with at most k calls at once runs the tool exactly 1 + k times the declarations |
| `GatewayLimits.OverlapNeedsTheFactor` | go/tools.go:374-409 | two overlapping calls and one declaration reach three runs, so the simpler bound fails |
| `GatewayPolicy.DeniedToolNeedsGrant` | go/tools.go:322-365 | a tool the policy denies never runs unless its key was granted |
| `GatewayDenial.DenialHolds` | go/tools.go:323-330 | once a key is denied, and until someone approves it, no tool runs under it whatever the policy says, and every call begun on it is refused if it ends |
| `GatewayDenial.DenialShutsTheKey` | go/store.go:606-672 | the decision itself brings this about in any state where no call on the key is past the permission check |
| `GatewayPolicy.SandboxedToolNeedsExecutor` | go/tools.go:477-509 | a sandbox-required tool runs only through a configured executor |
| `GatewayPolicy.ApprovalIsAskedFirst` | go/tools.go:334-358 | a tool that needs approval never runs before a request under its key; nothing more than a request is needed |
| `GatewayApproval.RunsUngrantedIff` | go/tools.go:284-470 | some legal run invokes the tool of a request whose key was never granted if and only if the input is good, the policy allows the tool and a sandbox it needs is configured, whether or not it requires approval |
| `GatewayApproval.ApprovalIsNotWaitedFor` | go/tools.go:322-358 | the run: a first call asks for approval and is turned away, a second runs the tool while the request is pending, managed or not, sandboxed or not |
| `GatewayApproval.RunsKeepRequested` | go/tools.go:284-321 | over every run each invocation belongs to a step that exists and had good input |
| `GatewayPolicy.RunsKeepPermitted` | go/tools.go:322-365 | every call past the permission check, and every run of a tool, is cleared |
| `GatewayBudget.RecordedCallsBounded` | go/tools.go:200-209 | with at most k calls at once on a run its recorded tool calls never exceed the limit plus k - 1 |
| `GatewayLimits.BudgetBoundIsAttained` | go/tools.go:200-209 | for every limit m and every k some run with at most k calls at once records exactly m + k - 1 calls |
| `GatewayBudget.SummaryCountsCalls` | go/store.go:697-715 | when each tool call records one, the summary the budget reads is the number of calls |
| `GatewayBudget.WithinBudgetCounts` | go/tools.go:200-209 | the check passes if and only if fewer calls than the limit are recorded |
| `GatewayBudget.RunsKeepBudgeted` | go/tools.go:366-470 | recorded calls plus calls already let through stay within the bound at every step |
| `GatewayBudget.SystemKeepsStoreAndNeverSticks` | go/tools.go:284-470 | calls in flight keep the store's invariant, and each can always take its next step |
| `CostAttribution.CostSummary` | go/store.go:697-715 | the store's summary loop |
| `CostAttribution.Attribute` | go/evidence.go:180-215 | the report loop fills the total and the four breakdowns |
| `CostAttribution.StepRoles` | go/evidence.go:181-186 | the role of a step is the last one its events carry |
| `CostAttribution.ReportConserves` | go/evidence.go:180-231 | by-agent, by-step and by-name breakdowns each sum to the total field by field, and the total to the amounts |
| `CostAttribution.BreakdownConserves` | go/evidence.go:217-231 | conservation for any grouping whatever |
| `CostAttribution.GroupIsSummaryOfItsRecords` | go/evidence.go:180-231 | each entry of a breakdown is the summary of exactly its records |
| `CostAttribution.ReportEntries` | go/evidence.go:180-203 | by agent a record counts for the role the last event of its step names, by step for its step or the run, and by name |
| `CostAttribution.NestedCategoryMatchesFlat` | go/evidence.go:207-212 | the nested category table agrees with the flat one unless two categories join to one key |
| `TimeTravel.Travel` | go/timetravel.go:27-60 | the loop selects the last event up to the sequence number and the state after it |
| `TimeTravel.SelectedIsAsked` | go/timetravel.go:27-60 | the selected event is the one with the number asked for, the last beyond the end, none at or below zero |
| `TimeTravel.OverlayIsMergeIffFlat` | go/timetravel.go:36-40 | laying a patch over a state is merging it if and only if no member is null and every object that lands on an object replaces it |
| `TimeTravel.MergeReplacesIff` | go/types.go:292-308 | merging an object gives the object itself if and only if it names every key of the base, holds no null, and so on where object meets object |
| `TimeTravel.TravelAgreesIffFlat` | go/timetravel.go:27-80 | time travel shows the store's state at every point if and only if every patch was flat |
| `TimeTravel.TravelShowsPastStates` | go/timetravel.go:27-80 | with scalar patches it shows the state any earlier store held, and the final state at 0 and beyond the end |
| `TimeTravel.TravelKeepsDeletedKey` | go/timetravel.go:36-40 | after a run is created with a key and patched to delete it, the store has lost the key and time travel shows it |
| `ReplayPlan.SlugLoop` | go/evidence.go:623-642 | the builder loop computes the slug |
| `ReplayPlan.SlugHoldsTheWords` | go/evidence.go:623-642 | a slug holds the lower-case word characters of its text in order with single dashes only between them, or is unknown |
| `ReplayPlan.StepsReported` | go/evidence.go:300-309 | failed steps and steps waiting for a retry are reported, with what each calls for, and no others |
| `ReplayPlan.LedgerReported` | go/evidence.go:310-318 | so are ledger entries that failed or wait for verification |
| `ReplayPlan.ApprovalsReported` | go/evidence.go:319-327 | and approvals that are pending or denied |
| `ReplayPlan.EventsReported` | go/evidence.go:328-332 | and events of the failing kinds, each with what its kind calls for |
| `ReplayPlan.Dedupe` | go/evidence.go:568-580 | keeps the first row of each identifier in order |
| `ReplayPlan.FirstRowsAreDistinct` | go/evidence.go:568-580 | every identifier that occurs keeps exactly one row, its first |
| `ReplayPlan.PlanIsSafe` | go/evidence.go:396-418 | counts the unsafe rows; safe if and only if there are none |
| `ReplayPlan.SafeToReplay` | go/evidence.go:299-418 | the plan is safe if and only if no unsafe row is the first of its identifier |
| `ReplayPlan.StepAndLedgerIdsDiffer` | go/evidence.go:336-344 | a step failure never has the identifier of a ledger failure |
| `ReplayPlan.ReplaySafetyExact` | go/evidence.go:299-418 | for all inputs the plan is unsafe exactly when a pending entry is not behind an earlier entry of the same slug |
| `ReplayPlan.IssuedIdsKeepDistinct` | go/types.go:244-250 | slugs keep identifiers of the drawn form apart |
| `ReplayPlan.ReplaySafeIffNothingPending` | go/evidence.go:396-418 | with drawn identifiers safe if and only if no entry is pending verification |
| `ReplayPlan.ShadowedPendingEntry` | go/evidence.go:568-580 | with other identifiers a pending entry can hide |
| `ReplayOverStore.SafeIffNothingPending` | go/store.go:787-800 | for every run of the store that draws ledger identifiers in the form of newID the plan is safe if and only if no entry of the run is pending |
| `EvidenceStores.EvidenceStore.Enqueue` | rust/src/sqlite_evidence.rs:156-277 | validation, ownership, duplicate and conflict answers, and the queued row |
| `EvidenceStores.EvidenceStore.PendingCount` | rust/src/sqlite_evidence.rs:279-287 | the number of queued events: a batch of that size projects every one, drops none and leaves the queue empty |
| `EvidenceStores.EvidenceStore.Settle` | rust/src/sqlite_evidence.rs:328-500 | one queued event is projected, deduplicated or dropped, and acknowledged |
| `EvidenceStores.EvidenceStore.Insert` | rust/src/sqlite_evidence.rs:427-492 | the run, step and event rows one projected event inserts and updates |
| `EvidenceStores.EvidenceStore.ProjectBatch` | rust/src/sqlite_evidence.rs:289-502 | the batch loop and its receipt, and the errors for a limit of zero or beyond 64 bits |
| `EvidenceStores.EvidenceStore.Events` | rust/src/sqlite_evidence.rs:504-509 | the timeline of a run in sequence order, or why it cannot be read |
| `EvidenceStores.DistinctDays` | rust/src/sqlite_evidence.rs:519-531 | the distinct event days, newest first |
| `EvidenceStores.EvidenceStore.DeleteSteps` | rust/src/sqlite_evidence.rs:557-567 | deletes the removable steps with their events and counts them by run |
| `EvidenceStores.EvidenceStore.PruneToActiveEventDays` | rust/src/sqlite_evidence.rs:511-597 | the pruned tables, the retention metadata and the number of events deleted |
| `EvidenceStores.EvidenceStore.ExportBundle` | rust/src/sqlite_evidence.rs:599-644 | the exported bundle and receipt, or the error: unreadable, no events, target exists, foreign owner, in this order |
| `EvidenceStores.ReplayBundle` | rust/src/sqlite_evidence.rs:646-764 | the checks of a replay in order, and the summary |
| `EvidenceStores.DeriveStepsLoop` | rust/src/sqlite_evidence.rs:934-960 | the loop recomputes the steps or stops at the first owner that differs |
| `EvidenceStores.LastStatus` | rust/src/sqlite_evidence.rs:700-704 | the last terminal run status among the events |
| `EvidenceStores.WriteRowsLoop` | rust/src/sqlite_evidence.rs:869-891 | the event rows of a bundle |
| `EvidenceInvariant.EnqueueKeepsConsistent` | rust/src/sqlite_evidence.rs:156-277 | enqueue keeps one owner per run and step, distinct ids and valid rows |
| `EvidenceInvariant.ProjectKeepsConsistent` | rust/src/sqlite_evidence.rs:328-500 | projection keeps them, the index and rising sequence numbers |
| `EvidenceInvariant.QueuedIsProjected` | rust/src/sqlite_evidence.rs:328-426 | nothing queued through enqueue is ever judged invalid or duplicate |
| `EvidenceInvariant.StepRowMeaning` | rust/src/sqlite_evidence.rs:934-960 | a step's row is the owner and time of its first event, the time of its last, and its last terminal status or running |
| `EvidenceInvariant.NextSeqIsLarger` | rust/src/sqlite_evidence.rs:456-463 | the next sequence number is larger than every one in use for the run |
| `EvidenceStatus.ProjectionSetsStatuses` | rust/src/sqlite_evidence.rs:427-492 | which event types complete, fail or cancel the step and delete, complete or fail the run; any other leaves the status, or running and active at first |
| `EvidenceStatus.StepStatusIsItsLastEnd` | rust/src/sqlite_evidence.rs:1116-1123 | in every consistent store the status of a step is that of the last event that ended its turn, or running |
| `EvidenceStatus.RunStatusIsItsLastEnd` | rust/src/sqlite_evidence.rs:1157-1164 | without pruning the status of a run is that of the last event that ended its session, or active |
| `EvidenceStatus.EnqueueLimits` | rust/src/sqlite_evidence.rs:1086-1114 | what is queued keeps the limits on names, time and payload, and an event within them that is new and undisputed is queued |
| `EvidenceStatus.TurnAccounts` | rust/src/sqlite_evidence.rs:328-500 | on any tables a turn acknowledges one event, projects it if and only if it is sound, drops it if it is not and is new, else passes it over as a repetition |
| `EvidenceRuns.ReachableIsConsistent` | rust/src/sqlite_evidence.rs:156-597 | queue, runs, steps and events agree on owners in every reachable store, and the index is the recomputation |
| `EvidenceRuns.NothingIsDropped` | rust/src/sqlite_evidence.rs:289-502 | a batch projects exactly the oldest events in order; projected and acked are the smaller of limit and pending, dropped is 0 |
| `EvidenceRuns.BatchesAdd` | rust/src/sqlite_evidence.rs:289-502 | projecting a and then b gives the tables of projecting a + b, for all tables |
| `EvidenceRuns.EnqueueCommutesWithOne` | rust/src/sqlite_evidence.rs:156-502 | enqueue and projection commute, and the answer of enqueue is the same before and after |
| `EvidenceRuns.OnlyEnqueueOrderMatters` | rust/src/sqlite_evidence.rs:289-502 | without pruning the drained tables depend only on the order of enqueueing |
| `EvidenceRuns.HistoryIsWhatWasAccepted` | rust/src/sqlite_evidence.rs:156-502 | without pruning events and queue are exactly the accepted inputs in order |
| `EvidenceRuns.WithoutPruningNoGaps` | rust/src/sqlite_evidence.rs:456-463 | without pruning each run's events are numbered 1..n |
| `EvidenceRuns.RunRowIsRecomputed` | rust/src/sqlite_evidence.rs:427-492 | without pruning a run's row is the session and time of its first event, the time of its last, and the last terminal status |
| `EvidenceRuns.BatchingIsIrrelevant` | rust/src/sqlite_evidence.rs:289-502 | from an empty store all of this at once |
| `EvidenceRetention.CutoffIsExact` | rust/src/sqlite_evidence.rs:519-536 | a day is on or after the cutoff if and only if fewer than keep_days later days have events |
| `EvidenceRetention.CutoffIsRecorded` | rust/src/sqlite_evidence.rs:511-536 | a prune acts if and only if more than keep_days days have events, and records the day with keep_days - 1 later ones |
| `EvidenceRetention.PruneKeepsExactlySurvivors` | rust/src/sqlite_evidence.rs:537-573 | an event stays if and only if it is recent, or its step is unfinished or has a recent event |
| `EvidenceRetention.PruneIsTurnAtomic` | rust/src/sqlite_evidence.rs:537-573 | recent events and unfinished steps stay whole; a step keeps all its events or none |
| `EvidenceStatus.RemovedIffEndedAndOld` | rust/src/sqlite_evidence.rs:537-567 | a prune removes a step if and only if one of its events ended the turn and none is of a recent day |
| `EvidenceRetention.PruneCountsRemovedSteps` | rust/src/sqlite_evidence.rs:581-594 | the metadata grows by exactly the steps each run lost; surviving step rows are untouched |
| `EvidenceRetention.PruneIsIdempotent` | rust/src/sqlite_evidence.rs:511-597 | a second identical prune changes nothing and deletes nothing |
| `EvidenceRetention.PruneKeepsConsistent` | rust/src/sqlite_evidence.rs:511-597 | pruning keeps owners, ids, order and the index |
| `EvidenceRetries.RetryIsRecognised` | rust/src/sqlite_evidence.rs:209-275 | once accepted an event is answered false on every retry and any other content under its id is refused, while nothing is pruned |
| `EvidenceRetries.PruneDecidesRetry` | rust/src/sqlite_evidence.rs:209-275 | after a prune a retried event is answered false if it survived and accepted as new if it did not |
| `EvidenceRetries.RecognisedThroughoutIff` | rust/src/sqlite_evidence.rs:156-597 | over any run, with prunes, a held event is recognised at every moment if and only if every prune leaves it queued or among the survivors |
| `EvidenceRetries.PrunedEventIsAcceptedAgain` | rust/src/sqlite_evidence.rs:511-597 | an event projected, followed by one of a later day and pruned to one active day is accepted a second time |
| `EvidenceBundle.IndexIsRecomputation` | rust/src/sqlite_evidence.rs:436-455 | a run's rows in the step table are what the recomputation gives for its events in sequence order |
| `EvidenceBundle.DerivedRows` | rust/src/sqlite_evidence.rs:934-960 | the recomputation gives each step the row its own events determine |
| `EvidenceBundle.ReadableRoundTrip` | rust/src/sqlite_evidence.rs:989-1043 | reading rows and writing them out again gives the same rows |
| `EvidenceBundle.ReplayAcceptsIff` | rust/src/sqlite_evidence.rs:660-712 | replay accepts a bundle if and only if it reads back and every recomputed fact matches |
| `EvidenceBundle.ExportReplays` | rust/src/sqlite_evidence.rs:599-932 | replay of an exported run passes and gives back timeline, count, hash, cutoff and removed turns |
| `EvidenceBundle.ReachableExportReplays` | rust/src/sqlite_evidence.rs:599-932 | for every reachable store and every run with events: timeline, count, hash, cutoff, removed turns and step count |
| `EvidenceSummary.SummaryTellsTheTimeline` | rust/src/sqlite_evidence.rs:700-764 | of every bundle that replays the summary tells its timeline: types, session, last event, steps, attributed failures, and the status by the last end of the session |
| `EvidenceSummary.TimelineReadsTheRows` | rust/src/sqlite_evidence.rs:504-509 | reading a run gives its rows in the order they were projected; a blank name is refused |
| `EvidenceSummary.BundleRowTellsTheRun` | rust/src/sqlite_evidence.rs:599-644 | the run row of a bundle has the session and time of its first event, the time of its last, and the status by the last end of the session |
| `EvidenceBundle.LacksEventsIff` | rust/src/sqlite_evidence.rs:646-712 | the code would index an empty list if and only if the bundle passes the checks before with no event, no step and no run but its own |
| `EvidenceBundle.AnEmptyBundle` | rust/src/sqlite_evidence.rs:692 | such a bundle for any run |
| `EvidenceBundle.AcceptedHashPinsSummary` | rust/src/sqlite_evidence.rs:662-764 | two accepted bundles with the same event hash give the same summary but for the retention metadata, or exhibit two texts with the same hash |
| `EvidenceBundle.TimelineIsOfRun` | rust/src/sqlite_evidence.rs:989-1000 | everything read back for a run is of that run |
| `EvidenceHash.CanonicalString` | rust/src/sqlite_evidence.rs:1065-1084 | the appending loops build the canonical string |
| `EvidenceHash.CanonicalDeterminesTimeline` | rust/src/sqlite_evidence.rs:1065-1084 | two lists have the same string if and only if they agree in length and in every encoded field |
| `EvidenceHash.CanonicalDeterminesFacts` | rust/src/sqlite_evidence.rs:1065-1084 | unless a step is named <none>, if and only if all facts, sequence numbers and payload hashes agree |
| `EvidenceHash.FieldSplits` | rust/src/sqlite_evidence.rs:1068-1080 | a length-prefixed field at the front of a string can be told from the rest |
| `EvidenceHash.StepNamedNoneIsConfused` | rust/src/sqlite_evidence.rs:1072 | the exception is real |

## Left out

- The OMP bridge (`go/omp.go`) is not modelled: it is a client that makes store calls, and the theorems about the store hold for every sequence of calls by any clients.
- Worker and scheduler loops (`go/worker.go`, `go/scheduler.go`): counters and delegation over the store.
- The Python runtime and the in-memory Rust store: separate implementations of the same interface.
- Payloads, hashes, references and event identifiers of ordinary store events, and the causal token: only the parts of an event that state, leases, roles or the replay plan read are modelled.
- Artifacts, media and stream checkpoints, model-call records and the model token budget: they append events and cost records, which are ordinary store calls here.
- Failure categories, messages, severities, the causal graph, lifecycle rows and alerts of `go/evidence.go`: text and counts derived from the same rows.
- The frames of a time-travel report (changed keys, diff, HTML): presentation of the states that are modelled.
- The bodies of tool schemas: whether arguments and results pass is an input.
- Tampered text in a bundle's metadata (numbers that do not parse): metadata is typed here, missing values are modelled.
- `PRAGMA quick_check`, migrations and connection handling of the sidecar: I/O and library behaviour.
- Integer widths: sequence numbers, counts and versions are unbounded; only the `i64` limit of a projection batch is modelled.
- JSONStores.JSONStore.ReserveLedger: does not model the tool version, call identifier, argument hash and references of an entry, because nothing modelled reads them.
- JSONStores.JSONStore.UpdateLedger: does not model the response hash, references and external identifier, because nothing modelled reads them.
- JSONStores.JSONStore.RecordCost: does not model the identifier and metadata of a record, because nothing modelled reads them.
- EvidenceStores.ReplayBundle: gives the bundle without events its own error, where the code indexes an empty list and stops.
