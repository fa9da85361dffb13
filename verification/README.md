# A verified model of the local inference application

Dafny models of the parts of this repository where state, branching and failure meet, with
proofs that the models keep the promises the code is built on. Check the project with
`dafny verify dfyconfig.toml`.

## What is modelled

**Inference registry, model lifecycle and generation scheduler.** `InferenceRuntime` owns
models, active and quarantined sequences, quarantined models, four id indices and a
five-component memory ledger kept per slot and globally. `Registry.dfy` states what every
reachable state satisfies, `RegistrySteps.dfy`, `RegistryModelSteps.dfy` and
`RegistryAdmission.dfy` prove that every step keeps it, and `Runtime.dfy` holds the operations
as methods that keep it on `Ok` and on `Err`. `Shutdown.dfy` is shutdown as a machine of small
steps that the method follows, and `Witnesses.dfy` holds concrete registries on which it, a poll
and a removal fail. The loader and the backend are an oracle with
nondeterministic answers and a ghost log of every call; `BackendProtocol.dfy` is the ownership
contract of that log over whole runs, and the registry invariant ties each live or
half-destroyed backend object to exactly one holder. `Scheduler.dfy` runs generations one
opportunity at a time; `Generation.dfy` defines the simple loop (prefill, sample, then decode
and sample until a token ends it) that every interleaving refines, `Fairness.dfy` the round
robin, and `Pacing.dfy` the scheduler's own run of turns and how long a task can take in it.
`TokenOutput.dfy` is the bounded output buffer, a refinement of an unbounded log. `Worker.dfy`
is the step relation over all of it: commands, turns, pulls and maintenance.

**Task graph.** `TaskGraph.dfy` is the in-place queue algorithm over caller arrays,
`TaskStates.dfy` the retrying state table with blocked propagation and the no-deadlock theorem,
`ArtifactFlow.dfy` the provenance scans.

**Corrective workflow.** `Workflow.dfy` runs the fixed six-task plan against ports that may
answer anything; `WorkflowPlan.dfy` shows the plan always validates, `WorkflowArtifacts.dfy` is
the append-only store and the size accounting.

**UTF-8 decoder, context planner, record codec, GGUF header.** `Utf8.dfy`,
`ContextPlanner.dfy`, `RecordCodec.dfy` and `GgufHeader.dfy`: each an object or a method with
loops, proved against a specification function, and lemmas about that function.

Conventions: a slot, a task and a lifecycle held inside a map are values, as Rust's exclusive
ownership makes them; machine integers are unbounded with every check, wrap or saturation the
code makes written out; a busy lock, a port's answer and a backend's answer are nondeterministic.

## Where the code and its documentation disagree

The documentation of `poll_cleanup` says that it returns an error only when indices or memory
accounting cannot be updated (runtime.rs:1059-1063). The code also returns
`Lifecycle(InvalidTransition)`, after everything was updated, when the sequence it released was
not the last quarantined one of a model waiting to be unloaded. The model follows the code:
`RuntimeSpec.PollRejectedExactly` says exactly when, `Witnesses.PollFails` shows it.

The same test of `release_model_with_primary` makes the undocumented `remove_request` report an
error after the request is gone (`RuntimeSpec.RemoveRejectedExactly`, `Witnesses.RemovalFails`),
and stops `shutdown` before its pass is complete. `shutdown` documents that a lifecycle error is
returned immediately, so nothing is contradicted there; `ShutdownSpec.RejectableExactly` says from
which registries it can happen, `Runtime.InferenceRuntime.Shutdown` that from all others it
cannot, and `Witnesses.ShutdownFails` shows a run.

## Model

| member | source | states |
|---|---|---|
| BackendProtocol.NothingAfterDestroy | crates/features/domain-contracts/src/backend.rs:149-190 | once a sequence has been destroyed successfully, no later call of any run names it: no second destruction, no execution, no re-creation |
| BackendProtocol.ExecutedOnlyWhileOwned | crates/features/domain-contracts/src/backend.rs:149-190 | every execution of a sequence lies after its creation and before the first attempt to destroy it, failed attempts included |
| BackendProtocol.UnloadOnlyWhenEmpty | crates/features/domain-contracts/src/backend.rs:177-190 | for every sequence a model created and every unload attempt of that model, in either log order, the sequence was successfully destroyed in between: unloading waits for all of them and nothing is created afterwards |
| BackendProtocol.NothingAfterUnload | crates/features/domain-contracts/src/backend.rs:177-190 | a successful unload is the last call that ever names the model |
| BackendProtocol.DestroyIsBounded | crates/engines/inference-runtime/src/runtime.rs:1068-1196 | over any run no sequence is asked to be destroyed more than the configured number of times, the first failure included, and the attempts on record are exactly the calls made |
| BackendProtocol.UnloadIsBounded | crates/engines/inference-runtime/src/runtime.rs:1068-1196 | the same bound and the same exactness for unloading a model |
| BackendProtocol.SequenceMonotone | crates/features/domain-contracts/src/backend.rs:149-190 | between any two moments of a run a destroyed sequence stays destroyed, one whose destruction failed is never usable again, and a sequence never changes its model |
| BackendProtocol.ModelMonotone | crates/features/domain-contracts/src/backend.rs:177-190 | between any two moments an unloaded model stays unloaded and one whose unload failed never becomes resident again |
| Backends.PrefillIsChecked | crates/features/domain-contracts/src/backend.rs:206-254 | the backend is entered only unfinished, with room for every token and for the logits it will write; a refused call changes nothing; the buffer keeps its size; capacity, cancellation and finish answers never surface as errors |
| Backends.DecodeIsChecked | crates/features/domain-contracts/src/backend.rs:267-311 | the same for decode, which is entered only from the ready state with room for one more token |
| Backends.Backend.DestroySequence | crates/features/domain-contracts/src/backend.rs:149-161 | one recorded destruction per call, allowed only for a sequence not yet destroyed and with attempts left |
| Backends.Backend.UnloadModel | crates/features/domain-contracts/src/backend.rs:177-190 | one recorded unload per call, allowed only when every sequence of the model is destroyed and attempts are left |
| Backends.Backend.CreateSequence | crates/features/domain-contracts/src/backend.rs:103-108 | a created sequence is new to the whole run and is recorded against its resident model; a failure records nothing |
| Backends.Backend.Load | crates/features/domain-contracts/src/backend.rs:48-52 | a loaded model is new to the whole run; a failure records nothing |
| Backends.Backend.Prefill | crates/features/domain-contracts/src/backend.rs:206-254 | answers exactly as the checked call on this sequence, and is recorded exactly when the backend was entered |
| Backends.Backend.Decode | crates/features/domain-contracts/src/backend.rs:267-311 | the same for decode |
| Footprints.CheckedAdd | crates/engines/inference-runtime/src/runtime.rs:1866-1892 | five-component addition succeeds exactly when every component fits 64 bits, with the exact sum |
| Footprints.CheckedSub | crates/engines/inference-runtime/src/runtime.rs:1894-1920 | five-component subtraction succeeds exactly when no component underflows, and is then undone by addition |
| Footprints.SumRemove | crates/engines/inference-runtime/src/runtime.rs:1866-1920 | the footprint of a map is that of one entry plus that of the rest, whatever order the entries are added in |
| Footprints.SumUpdate | crates/engines/inference-runtime/src/runtime.rs:1866-1920 | replacing one entry moves the total by exactly the difference |
| Runtime.Admit | crates/engines/inference-runtime/src/runtime.rs:1841-1864 | admission succeeds exactly when the next total fits the integers and both budgets, and a refusal names the overflow, or the first budget exceeded with the exact bytes required and allowed |
| Lifecycle.ModelLifecycle.CountsRequests | crates/features/domain-contracts/src/lifecycle.rs:259-332 | in every reachable state of the object the active count is exactly the requests started and not finished, and no release was handed out that is not due or done |
| Lifecycle.ModelLifecycle.StartRequest | crates/features/domain-contracts/src/lifecycle.rs:259-281 | starts exactly while the model accepts work and the counter can take one more, and then counts exactly one more; an error changes nothing and says which of the two it was |
| Lifecycle.ModelLifecycle.FinishRequest | crates/features/domain-contracts/src/lifecycle.rs:288-332 | ends exactly a counted request; asks for the release exactly when this enters the unloading state; never changes whether work is accepted |
| Lifecycle.ModelLifecycle.RequestUnload | crates/features/domain-contracts/src/lifecycle.rs:340-376 | an accepted unload ends admission without losing a request; it is refused as busy exactly when policy rejects a busy model; refusals change nothing |
| Lifecycle.ModelLifecycle.Poll | crates/features/domain-contracts/src/lifecycle.rs:384-407 | moves the state exactly when a drain window has expired, and then to cancelling the same requests |
| Lifecycle.RunKeepsCounts | crates/features/domain-contracts/src/lifecycle.rs:259-332 | over every run the active count is exactly the requests started and not finished, and releases are handed out once per completed unload plus once while one is due |
| Lifecycle.StepKeepsCounts | crates/features/domain-contracts/src/lifecycle.rs:207-420 | one operation moves the active count by exactly its own start or finish, and hands out a release exactly when it enters the unloading state |
| Lifecycle.FinishIsExact | crates/features/domain-contracts/src/lifecycle.rs:288-332 | finishing succeeds exactly while a request is counted, and asks for the release exactly for the last request of a model that no longer accepts work |
| Lifecycle.NoStartAfterUnload | crates/features/domain-contracts/src/lifecycle.rs:340-407 | after an accepted unload no run starts a request, and the active count never grows |
| Lifecycle.DrainIsBounded | crates/features/domain-contracts/src/lifecycle.rs:384-407 | whatever happens during a drain its window never moves, so a poll escalates it to cancellation if and only if the timeout has passed |
| RegistrySteps.DropRequestKeeps | crates/engines/inference-runtime/src/runtime.rs:1582-1606 | after a successful destruction the whole registry invariant holds again: four exact indices, lifecycle counts, both ledgers in all five components, limits, generations and ownership of every backend object |
| RegistrySteps.QuarantineRequestKeeps | crates/engines/inference-runtime/src/runtime.rs:1516-1580 | the same invariant after a failed destruction, with the sequence still owned and still paid for |
| RegistrySteps.RetrySequenceKeeps | crates/engines/inference-runtime/src/runtime.rs:1076-1110 | the invariant after one more failed attempt at a quarantined sequence |
| RegistrySteps.DropQuarantinedKeeps | crates/engines/inference-runtime/src/runtime.rs:1112-1154 | the invariant after a quarantined sequence was destroyed at last |
| RegistrySteps.DropRequestSlot | crates/engines/inference-runtime/src/runtime.rs:1582-1598 | inside remove_request the slot subtraction never underflows and finish_request never fails |
| RegistrySteps.DropRequestLedger | crates/engines/inference-runtime/src/runtime.rs:1605-1606 | the global subtraction never underflows and both ledgers stay exact sums of what is held |
| RegistrySteps.QuarantineRequestLedger | crates/engines/inference-runtime/src/runtime.rs:1523-1559 | moving a request to quarantine keeps the exact sums although its host workspace leaves the slot |
| RegistryModelSteps.DropModelKeeps | crates/engines/inference-runtime/src/runtime.rs:1692-1758 | the invariant after a model was unloaded |
| RegistryModelSteps.QuarantineModelKeeps | crates/engines/inference-runtime/src/runtime.rs:1692-1758 | the invariant after an unload failed: the model stays owned, quarantined and paid for |
| RegistryModelSteps.RetryModelKeeps | crates/engines/inference-runtime/src/runtime.rs:1163-1188 | the invariant after one more failed unload |
| RegistryModelSteps.DropPendingModelKeeps | crates/engines/inference-runtime/src/runtime.rs:1189-1195 | the invariant after a quarantined model was unloaded at last, without underflow |
| RegistryModelSteps.AddModelKeeps | crates/engines/inference-runtime/src/runtime.rs:265-287 | the invariant after a load, under a handle that was never issued before |
| RegistryModelSteps.AddPendingModelKeeps | crates/engines/inference-runtime/src/runtime.rs:235-261 | the invariant after a rejected model could not be unloaded |
| RegistryModelSteps.RejectedModelKeeps | crates/engines/inference-runtime/src/runtime.rs:235-263 | a rejected model that was unloaded at once leaves the registry as it was |
| RegistryModelSteps.ReleaseWorkspaceKeeps | crates/engines/inference-runtime/src/runtime.rs:940-955 | the invariant after a task workspace is returned, without underflow |
| RegistryModelSteps.HolderOf | crates/engines/inference-runtime/src/runtime.rs:539-646 | every backend sequence not yet destroyed is held by exactly one resident model, the one it was created on, as an active or a quarantined request: nothing is dropped without a release |
| RegistryModelSteps.UseSequenceKeeps | crates/engines/inference-runtime/src/runtime.rs:663-809 | the invariant after an execution moved the sequence and its usage |
| RegistryModelSteps.RelabelKeeps | crates/engines/inference-runtime/src/runtime.rs:1002-1051 | the invariant after a lifecycle step that keeps the active count |
| RegistryAdmission.AddRequestKeeps | crates/engines/inference-runtime/src/runtime.rs:431-654 | the invariant after an admission, whose second lifecycle.start_request therefore never fails |
| RegistryAdmission.AddRejectedKeeps | crates/engines/inference-runtime/src/runtime.rs:540-583 | the invariant after a created sequence broke its plan and could not be destroyed |
| RegistryAdmission.RejectedSequenceKeeps | crates/engines/inference-runtime/src/runtime.rs:540-583 | a rejected sequence destroyed at once leaves the registry as it was |
| Runtime.InferenceRuntime.LoadModel | crates/engines/inference-runtime/src/runtime.rs:189-287 | each early check has exactly its error and touches nothing; past them, with the answers of the loader in hand, it succeeds exactly when the plan is given, its footprint fits the integers and both budgets on top of the ledger, the load is given, and handle and metadata are those planned; slot, receipt and ledger then hold exactly the planned footprint; every other answer has its own error, registry and backend calls |
| Runtime.InferenceRuntime.PlanAndLoad | crates/engines/inference-runtime/src/runtime.rs:222-287 | the loader is asked for a plan first and for the model only if the plan fits; what comes of both answers is exact |
| Runtime.InferenceRuntime.AdmitModel | crates/engines/inference-runtime/src/runtime.rs:263-287 | an admitted model is stored ready, with the planned descriptor and footprint, and the ledger becomes the total that was admitted |
| Runtime.InferenceRuntime.RejectModel | crates/engines/inference-runtime/src/runtime.rs:235-263 | a model that breaks its plan is unloaded at once, or quarantined under the generation it was loaded for with exactly its planned footprint; the error names exactly which |
| Runtime.InferenceRuntime.StartRequest | crates/engines/inference-runtime/src/runtime.rs:431-654 | each early check has exactly its error and touches nothing; past them it succeeds exactly when the plan is given, echoes the configuration and the expected logits, fits the integers, both budgets and the slot together with the workspace, and the sequence created has the requested id and capacity; request, slot, receipt and ledger then hold exactly what was planned; every other answer has its own error, registry and backend calls |
| Runtime.InferenceRuntime.Preflight | crates/engines/inference-runtime/src/runtime.rs:318-405 | the same checks of request and model under exactly their conditions, then exactly one plan, refused exactly when it is broken or does not fit with the workspace; nothing else changes |
| Runtime.InferenceRuntime.PlanAndCreate | crates/engines/inference-runtime/src/runtime.rs:521-654 | the model is asked for a plan first and for a sequence only if the plan agrees and fits; what comes of both answers is exact |
| Runtime.InferenceRuntime.RejectSequence | crates/engines/inference-runtime/src/runtime.rs:540-583 | a created sequence that breaks the plan is destroyed at once, or quarantined with exactly its planned footprint, never kept as a request; the error names exactly which |
| Runtime.InferenceRuntime.CommitRequest | crates/engines/inference-runtime/src/runtime.rs:584-654 | after the checks the admission always goes through, so its second cleanup branch is dead, and it stores exactly the planned footprint, the workspace and the created sequence |
| Runtime.InferenceRuntime.PrefillRequest | crates/engines/inference-runtime/src/runtime.rs:663-734 | an unknown request changes nothing; otherwise one checked call, then usage, or the removal of a request that ended or failed: the exact registry, answer, caller buffer and backend calls |
| Runtime.InferenceRuntime.DecodeRequest | crates/engines/inference-runtime/src/runtime.rs:743-809 | the same for decode |
| Runtime.InferenceRuntime.RemoveRequest | crates/engines/inference-runtime/src/runtime.rs:1497-1612 | the exact new registry, answer and backend calls, for either answer of the backend to either call; the invariant holds on every exit |
| Runtime.InferenceRuntime.ReleaseModelWithPrimary | crates/engines/inference-runtime/src/runtime.rs:1692-1758 | the exact new registry, answer and backend calls; rejects while anything of the model is left |
| Runtime.InferenceRuntime.CancelAllRequests | crates/engines/inference-runtime/src/runtime.rs:1640-1682 | it takes the requests of the model from the least id on, each with the effect of one removal for the answer the backend gave, and stops at the first failure; on success none is left and the reported number is exactly those cancelled; without quarantine it fails only if the backend failed a release |
| Runtime.InferenceRuntime.CancelAllForShutdown | crates/engines/inference-runtime/src/runtime.rs:1614-1638 | drains the model past failed destructions as the specified moves of shutdown; the number it reports is exactly how many active requests are gone; without quarantine it fails only if the backend failed a release |
| Runtime.InferenceRuntime.SelectCleanup | crates/engines/inference-runtime/src/runtime.rs:1070-1162 | selects the least retryable sequence, or else the least retryable model, or nothing exactly when nothing may be retried |
| Runtime.InferenceRuntime.RetryQuarantined | crates/engines/inference-runtime/src/runtime.rs:1076-1155 | the exact effect and backend calls of retrying one quarantined sequence |
| Runtime.InferenceRuntime.RetryPendingModel | crates/engines/inference-runtime/src/runtime.rs:1157-1195 | the exact effect and backend call of retrying one quarantined model |
| Runtime.InferenceRuntime.PollCleanup | crates/engines/inference-runtime/src/runtime.rs:1068-1196 | one poll is the specified effect of the specified selection, with exactly its backend calls; it reports an error exactly when it released one of several quarantined sequences of a model waiting to be unloaded; the invariant holds on Ok and on Err |
| Runtime.InferenceRuntime.UnloadModel | crates/engines/inference-runtime/src/runtime.rs:1002-1051 | absent and stale handles change nothing and are answered exactly; an idle model is released; a busy one refuses with its exact count, drains in exactly the window of the policy, or is cancelled and reports exactly the requests cancelled; any other state is refused unchanged; without quarantine it fails only if it refused or the backend failed a release; other models are untouched |
| Runtime.InferenceRuntime.AbsentUnload | crates/engines/inference-runtime/src/runtime.rs:1760-1795 | testing the quarantined model first answers as if unknown and stale handles were told apart before it, because a quarantined model always has a generation; it succeeds exactly for the current handle of a model that is gone; a stale answer for a handle once issued names a newer generation |
| Runtime.InferenceRuntime.PollUnloadTransition | crates/engines/inference-runtime/src/runtime.rs:1216-1301 | idle exactly when no drain has timed out and no cancellation or release is due; otherwise moves exactly the least due model, drains before cancellations before releases, counts exactly the requests it cancelled, and without quarantine succeeds unless the backend failed a release |
| Runtime.InferenceRuntime.CancelAndRelease | crates/engines/inference-runtime/src/runtime.rs:1216-1301 | cancels every request of one model and releases it, touching no other model; the receipt counts exactly those cancelled in this and earlier attempts |
| Runtime.InferenceRuntime.ReleaseIdle | crates/engines/inference-runtime/src/runtime.rs:1684-1690 | releases a model without requests, touching no other model |
| Runtime.InferenceRuntime.DrainModels | crates/engines/inference-runtime/src/runtime.rs:1322-1381 | afterwards only quarantined sequences keep any model resident, and exactly the reported number of requests is gone; it is a run of the specified moves; with no quarantine and no failed release nothing is left |
| Runtime.InferenceRuntime.UseUpRetries | crates/engines/inference-runtime/src/runtime.rs:1383-1390 | the retry loop terminates although it can create new quarantined models, and ends with nothing retryable |
| Runtime.InferenceRuntime.FirstPendingCleanup | crates/engines/inference-runtime/src/runtime.rs:1447-1456 | answers exactly when something is quarantined, and then with the least quarantined sequence, or the least quarantined model when there is none, whose attempts are used up |
| Runtime.InferenceRuntime.Shutdown | crates/engines/inference-runtime/src/runtime.rs:1315-1403 | a run of the specified moves; success leaves no model, request or quarantined resource, and its receipt counts exactly the models and requests there were; on a safe registry the only failure is used-up retries, whatever the backend answers, and names the first resource still held; it succeeds whenever nothing was quarantined before and the backend fails no release |
| Runtime.InferenceRuntime.ReleaseGenerationWorkspace | crates/engines/inference-runtime/src/runtime.rs:940-955 | returning a workspace the ledger holds always succeeds and removes exactly it |
| RuntimeSpec.RemoveIsQuiet | crates/engines/inference-runtime/src/runtime.rs:1497-1612 | a removal starts and executes nothing, leaves every other request in its slot, always deactivates its own, and quarantines it exactly when its destruction failed |
| RuntimeSpec.RemoveRejectedExactly | crates/engines/inference-runtime/src/runtime.rs:1608-1611 | remove_request reports InvalidTransition after removing the request if and only if it was the last one of a model being unloaded that still has quarantined sequences |
| RuntimeSpec.RemoveOnModel | crates/engines/inference-runtime/src/runtime.rs:1497-1612 | what one removal leaves of the model: exactly one request less, or nothing because it held only this one |
| RuntimeSpec.RemoveFlawless | crates/engines/inference-runtime/src/runtime.rs:1497-1612 | on a model without quarantine a removal whose releases all succeed succeeds and leaves no quarantine |
| RuntimeSpec.ReleaseFlawless | crates/engines/inference-runtime/src/runtime.rs:1692-1758 | releasing an idle model being unloaded succeeds whenever the backend does |
| RuntimeSpec.ReleaseOnModel | crates/engines/inference-runtime/src/runtime.rs:1692-1758 | a release leaves the model resident exactly when it was rejected |
| RuntimeSpec.PollProgresses | crates/engines/inference-runtime/src/runtime.rs:1068-1196 | every poll that is not idle strictly lowers the pair (attempts left for sequences, attempts left for models), although releasing a sequence can add a model with attempts of its own |
| RuntimeSpec.PollIsQuiet | crates/engines/inference-runtime/src/runtime.rs:1139-1153 | a poll admits and executes nothing, and its only error is InvalidTransition |
| RuntimeSpec.PollRejectedExactly | crates/engines/inference-runtime/src/runtime.rs:1139-1153 | poll_cleanup reports an error if and only if it released one of several quarantined sequences of a model waiting to be unloaded |
| RuntimeSpec.RemovalRetryMeans | crates/engines/inference-runtime/src/runtime.rs:1497-1612 | a failed destruction keeps the sequence and is answered as final exactly when policy leaves no retry for it |
| RuntimeSpec.ReleaseRetryMeans | crates/engines/inference-runtime/src/runtime.rs:1692-1758 | the same for a failed release of a model |
| RuntimeSpec.PollRetryMeans | crates/engines/inference-runtime/src/runtime.rs:1068-1196 | a failed retry is reported as exhausted exactly when the resource can no longer be selected for one |
| ShutdownSpec.RejectableExactly | crates/engines/inference-runtime/src/runtime.rs:1303-1403 | some answers of the backend make shutdown stop with a lifecycle error if and only if some resident model is unsafe: it holds more than one sequence, and at least one of them is active or may be retried |
| ShutdownSpec.SafeNeverRejected | crates/engines/inference-runtime/src/runtime.rs:1315-1403 | over every run of the moves from a safe registry, whatever the backend answers, no lifecycle error occurs |
| ShutdownSpec.UnsafeCanReject | crates/engines/inference-runtime/src/runtime.rs:1315-1403 | wherever shutdown stands, as long as a model is unsafe there are answers of the backend that lead to a lifecycle error |
| ShutdownSpec.MoveShaped | crates/engines/inference-runtime/src/runtime.rs:1315-1403 | every move keeps slots, limits, generations and the four indices consistent |
| ShutdownSpec.MoveSafe | crates/engines/inference-runtime/src/runtime.rs:1315-1403 | every move keeps a safe registry safe, and none of them is rejected |
| Witnesses.RemovalFails | crates/engines/inference-runtime/src/runtime.rs:1608-1611 | a concrete consistent registry on which remove_request destroys the sequence, forgets the request and reports an error |
| Witnesses.PollFails | crates/engines/inference-runtime/src/runtime.rs:1139-1153 | a concrete consistent registry, one failed removal away from it, on which poll_cleanup releases a sequence and reports an error |
| Witnesses.ShutdownFails | crates/engines/inference-runtime/src/runtime.rs:1315-1403 | a concrete consistent registry on which shutdown stops with an error although the backend does everything it is asked to |
| RuntimeSpec.PollKeepsDrained | crates/engines/inference-runtime/src/runtime.rs:1315-1403 | once every resident model is held by quarantine alone, a successful poll keeps it so |
| RuntimeSpec.CleanupStateIsExact | crates/engines/inference-runtime/src/runtime.rs:877-885 | the inspection answers exactly for quarantined requests |
| RuntimeSpec.NothingQuarantinedIsIdle | crates/engines/inference-runtime/src/runtime.rs:1157-1162 | with nothing quarantined a poll is idle and calls nothing |
| Runtime.RemoveFacts | crates/engines/inference-runtime/src/runtime.rs:1497-1612 | every checked step of remove_request before its last one succeeds in every reachable state |
| Runtime.ReleaseFacts | crates/engines/inference-runtime/src/runtime.rs:1692-1758 | the fourth test of release_model_with_primary, on the slot ledger, is implied by the first two |
| RequestFrames.RemovalIsolates | crates/engines/inference-runtime/src/runtime.rs:1497-1612 | removing one request disturbs no other, returns no workspace, and a reported retention has really left its sequence or its model in quarantine |
| RequestFrames.RemovalRetains | crates/engines/inference-runtime/src/runtime.rs:1497-1612 | a removal reports a retained resource only if its sequence or its model is newly quarantined, and success only if nothing is |
| RequestFrames.ExecutionIsolates | crates/engines/inference-runtime/src/runtime.rs:663-809 | executing one request disturbs no other, whether it goes on, ends or fails |
| RequestFrames.StartIsolates | crates/engines/inference-runtime/src/runtime.rs:431-654 | admitting one request disturbs no other and adds only its own workspace |
| RequestFrames.LoadIsolates | crates/engines/inference-runtime/src/runtime.rs:189-287 | loading a model disturbs no request |
| TokenOutput.Accumulator.TryPushTokens | crates/adapters/host-runtime/src/token_output.rs:200-230 | accepted exactly when the lock is free and tokens, records and cursor have room, with each of the five errors under exactly its condition; accepted pushes extend the log, refused ones change nothing |
| TokenOutput.Accumulator.TryPushState | crates/adapters/host-runtime/src/token_output.rs:240-253 | the same for state records, which need one record only |
| TokenOutput.Accumulator.Pull | crates/adapters/host-runtime/src/token_output.rs:285-302 | the batch reads as exactly what was accepted since the last pull and starts where the last one ended; the saturating end cursor is exact; a busy lock is waited for and a poisoned one changes nothing |
| TokenOutput.DeliveredInOrder | crates/adapters/host-runtime/src/token_output.rs:285-302 | over any run the i-th batch reads as exactly its own part of the accepted log, in order, and its cursors count all tokens before and through it |
| TokenOutput.DeliveredWhole | crates/adapters/host-runtime/src/token_output.rs:285-302 | all batches together hold the whole delivered log and count all its tokens |
| TokenOutput.ReadsAfterTokens | crates/adapters/host-runtime/src/token_output.rs:94-99 | every range record keeps resolving to exactly the tokens it was pushed with when more are appended |
| TokenOutput.ReadsAfterState | crates/adapters/host-runtime/src/token_output.rs:240-253 | the same when a state record is appended |
| Generation.PublishedIsPrefix | crates/engines/inference-runtime/src/generation.rs:440-628 | at any moment, under any interleaving and any refused pushes, the published tokens are a prefix of those of the simple prefill-sample-decode loop, at most the last sampled one is withheld, and an uninterrupted end has published all of them with the same outcome |
| Generation.FinishMeans | crates/engines/inference-runtime/src/generation.rs:612-628 | a generation goes on exactly while its last token is no end token, no stop sequence is a suffix of its tokens and the limit is not reached; otherwise the reason named is true, an end token before a stop sequence before the limit |
| Generation.ReferenceEnds | crates/engines/inference-runtime/src/generation.rs:440-628 | no proper nonempty prefix of the tokens of the simple loop ends with an end token or a stop sequence; its outcome is the reason its last token gives, with exactly the maximum number of tokens for the limit, or what the backend or the sampler said next |
| Generation.PublishedEnds | crates/engines/inference-runtime/src/generation.rs:440-628 | the same of the tokens really published, under any interleaving: none before the last is an end token, no proper prefix ends with a stop sequence, and an uninterrupted end has the reason the published tokens give |
| Generation.RestUnfolds | crates/engines/inference-runtime/src/generation.rs:503-610 | one backend step of a task is one step of the simple loop |
| Generation.PublicationOrder | crates/engines/inference-runtime/src/generation.rs:631-708 | an accepted record stream is tokens and yields, then one terminal record, at most one cleanup and one exhaustion record and one final record, all with one outcome |
| Generation.AdmittedFits | crates/engines/inference-runtime/src/generation.rs:285-296 | on a backend that advances by the tokens it consumes, an admitted generation never runs out of sequence or logits space |
| Generation.NeverExhausted | crates/engines/inference-runtime/src/generation.rs:285-296 | hence no scheduled generation that started from an empty sequence, as the documentation of the Empty state says a created one is, ends with an exhausted buffer, whatever else is interleaved |
| TaskSteps.RunContinues | crates/engines/inference-runtime/src/generation.rs:503-608 | a sampled token keeps the task a state of the simple loop and brings it closer to its end |
| TaskSteps.RunStops | crates/engines/inference-runtime/src/generation.rs:547-603 | a step that ends the run has published all the simple loop produces |
| TaskSteps.TokenPublished | crates/engines/inference-runtime/src/generation.rs:477-493 | publishing the pending token keeps order, and ends the generation exactly where the simple loop ends it |
| TaskSteps.TaskEnds | crates/engines/inference-runtime/src/generation.rs:452-610 | every way a task ends keeps the published tokens a prefix of the simple loop and lets the registry forget the request |
| TaskSteps.StatePublished | crates/engines/inference-runtime/src/generation.rs:631-708 | each terminal record moves the stream to exactly the next stage |
| TaskSteps.YieldPublished | crates/engines/inference-runtime/src/generation.rs:470-475 | a yield record leaves tokens and stage as they were |
| SchedulerSpec.TerminalForEnters | crates/engines/inference-runtime/src/generation.rs:710-741 | the outcome survives a cleanup failure whose sequence is quarantined, and is otherwise replaced only by an inactive request, a model newly quarantined, or a rejected release |
| SchedulerSpec.TerminalFromErrorEnters | crates/engines/inference-runtime/src/generation.rs:743-757 | a runtime error becomes the outcome, with the quarantine it left behind |
| SchedulerSpec.WithTask | crates/engines/inference-runtime/src/generation.rs:383-416 | one task step keeps the whole schedule: every other task faithful to its own loop, tied to the registry and to the log |
| SchedulerSpec.TaskLeaves | crates/engines/inference-runtime/src/generation.rs:383-416 | a completed task leaves with exactly its own workspace |
| SchedulerSpec.ScheduleKept | crates/engines/inference-runtime/src/worker.rs:534-679 | whatever the worker does to a request that is not scheduled, the schedule stays intact |
| Fairness.RoundAdvances | crates/engines/inference-runtime/src/generation.rs:418-433 | while a request waits, every selection moves ahead in its round |
| Fairness.AtMostOncePerRound | crates/engines/inference-runtime/src/generation.rs:418-433 | in any round-robin run, between two selections of a request no other is selected twice, despite insertions and removals |
| Fairness.WaitIsBounded | crates/engines/inference-runtime/src/generation.rs:418-433 | in any round-robin run, with no more than n requests ever waiting during a window, one that waits throughout is selected within n selections |
| Pacing.TurnPaced | crates/engines/inference-runtime/src/generation.rs:383-416 | the turns the scheduler has taken stay a round-robin run that ends at its cursor, and every task has paid one unit of its remaining work for each of its turns that made progress |
| Pacing.AdmittedPaced | crates/engines/inference-runtime/src/generation.rs:359-381 | an admitted generation joins the run with at most 2 * maximum + 5 remaining work |
| Pacing.RoundIsFair | crates/engines/inference-runtime/src/generation.rs:418-433 | in the run of the scheduler itself, between two turns of a waiting task no other task has two |
| Pacing.EndsInTime | crates/engines/inference-runtime/src/generation.rs:383-416 | a task that has not ended was admitted fewer than n * (2 * maximum + 1 + its refused pushes) turns ago, if only n requests have waited since |
| Pacing.LeavesInTime | crates/engines/inference-runtime/src/generation.rs:383-416 | a task still scheduled was admitted fewer than n * (2 * maximum + 5 + its turns without progress) turns ago |
| Scheduler.GenerationScheduler.TaskIsBounded | crates/engines/inference-runtime/src/generation.rs:383-416 | both bounds hold of every task in every reachable state of the scheduler, over the turns it has really taken |
| Scheduler.WorkspaceFootprint | crates/engines/inference-runtime/src/generation.rs:783-824 | the exact byte count of everything a task allocates, or overflow exactly when it does not fit |
| Scheduler.PublishTerminal | crates/engines/inference-runtime/src/generation.rs:631-708 | one opportunity of a terminal task publishes exactly the record that is due, with the outcome announced first and the retry state the registry holds, and moves to the next stage only when it was accepted; the final one only when the registry holds nothing of the request; refused pushes are counted one for one |
| Scheduler.FinalRecord | crates/engines/inference-runtime/src/generation.rs:695-707 | the final record always closes the stream with the outcome announced first |
| Scheduler.PublishPending | crates/engines/inference-runtime/src/generation.rs:477-499 | publishes the sampled token or, when refused, publishes nothing and owes a yield; never completes a task; ends it exactly when the token was the last |
| Scheduler.EndRequest | crates/engines/inference-runtime/src/generation.rs:710-741 | removes the request for good and enters the terminal phase the removal calls for |
| Scheduler.CancelTask | crates/engines/inference-runtime/src/generation.rs:452-468 | a cancellation ends the task at once with that reason, unless trouble with the request itself replaced it |
| Scheduler.BackendStep | crates/engines/inference-runtime/src/generation.rs:507-607 | one backend step samples exactly one more token or ends the task as the simple loop does |
| Scheduler.SampleNext | crates/engines/inference-runtime/src/generation.rs:558-607 | over-reported logits and sampling failures end the task with their own error; otherwise the sampled token is appended to tokens and history and left pending |
| Scheduler.RunQuantum | crates/engines/inference-runtime/src/generation.rs:501-609 | whatever the quantum, one opportunity makes at most one backend step |
| Scheduler.AdvanceTask | crates/engines/inference-runtime/src/generation.rs:440-610 | one opportunity: only this request changes; progress strictly lowers its remaining work; no progress means exactly one refused push or waiting for quarantined cleanup; what is published is exactly the terminal record that is due, or the yield owed and then the pending token, and a refused push publishes nothing; a requested cancellation is honoured before anything more is published; without one a task ends only as the simple loop does or for trouble with its request |
| Scheduler.RemoveActive | crates/engines/inference-runtime/src/runtime.rs:817-861 | completing, cancelling and failing a request have exactly the effect, answer and calls of a removal with that blame, and disturb no other request |
| Scheduler.CallMeans | crates/engines/inference-runtime/src/generation.rs:507-557 | an answer of prefill or decode means for the simple loop what advance_task takes it to mean |
| Scheduler.GenerationScheduler.Admit | crates/engines/inference-runtime/src/generation.rs:243-381 | each rejection under exactly its condition and without touching anything; then one preflight plan with its own refusals, then exactly one start; success adds one task with exactly the requested job, a fresh sampler, zeroed logits, a workspace of exactly its byte count charged to the ledger, and 2 * maximum + 5 remaining work; every answer of the model has its exact outcome |
| Scheduler.GenerationScheduler.Screen | crates/engines/inference-runtime/src/generation.rs:250-296 | the tests of the request in their order, each failing exactly under its condition with the exact capacities |
| Scheduler.GenerationScheduler.PreflightAndStart | crates/engines/inference-runtime/src/generation.rs:314-360 | one plan is asked for before the start asks again; a refused preflight changes nothing |
| Scheduler.GenerationScheduler.Prepare | crates/engines/inference-runtime/src/generation.rs:298-313 | model, sampler and workspace are refused under exactly their conditions |
| Scheduler.GenerationScheduler.NextRequest | crates/engines/inference-runtime/src/generation.rs:418-433 | the least waiting id above the cursor, else the least waiting id, and none exactly when no task waits |
| Scheduler.GenerationScheduler.AdvanceNext | crates/engines/inference-runtime/src/generation.rs:383-416 | selects in round-robin order, takes one step of exactly that task, removes it with its workspace exactly when it completed, and records exactly this turn |
| Scheduler.GenerationScheduler.RequestCancellation | crates/engines/inference-runtime/src/generation.rs:196-207 | marks exactly one task, or reports that it is not scheduled |
| Scheduler.GenerationScheduler.RequestModelCancellation | crates/engines/inference-runtime/src/generation.rs:209-219 | marks exactly the tasks of one model |
| Scheduler.GenerationScheduler.DiscardAll | crates/engines/inference-runtime/src/generation.rs:221-237 | always succeeds, leaves no task and no workspace, touches no model, and starts the selection afresh |
| Worker.InferenceWorker.Dispatch | crates/engines/inference-runtime/src/worker.rs:534-679 | every command keeps the runtime and schedule invariants together and is answered in kind with exactly the registry effect and the backend calls that the answers of loader, model and backend call for; it changes no task it is not about, publishes nothing, leaves the run of turns alone except at shutdown, and stops the worker only for shutdown |
| Worker.InferenceWorker.StartDirect | crates/engines/inference-runtime/src/worker.rs:558-574 | a direct start of a scheduled id is refused without effect or calls; any other is exactly start_request |
| Worker.InferenceWorker.ExecuteDirect | crates/engines/inference-runtime/src/worker.rs:586-598 | a direct execution has exactly the effect, answer, buffer and calls of the checked execution, and gives up the stream guarantee of its own request only |
| Worker.InferenceWorker.FinishDirect | crates/engines/inference-runtime/src/worker.rs:599-634 | a direct completion or cancellation is exactly one removal, and leaves every stream guarantee intact |
| Worker.InferenceWorker.UnloadDirect | crates/engines/inference-runtime/src/worker.rs:635-653 | cancelling unloads mark exactly the tasks of the model first; the answer is the one the policy calls for: a busy model refuses, drains in exactly its window, or reports exactly the requests cancelled |
| Worker.InferenceWorker.ShutdownAll | crates/engines/inference-runtime/src/worker.rs:662-677 | every task is discarded; on success nothing is resident, quarantined, scheduled or reserved and the backend holds nothing of ours; it succeeds whenever nothing was quarantined and no release failed; the runtime is preserved exactly when it still owns something |
| Worker.InferenceWorker.LoadDirect | crates/engines/inference-runtime/src/worker.rs:545-557 | a load keeps the schedule and is exactly load_model, answers and calls included |
| Worker.InferenceWorker.RetryCleanup | crates/engines/inference-runtime/src/worker.rs:236-238 | one maintenance retry is exactly one poll and disturbs no task |
| Worker.InferenceWorker.AdvanceUnloads | crates/engines/inference-runtime/src/worker.rs:401-410 | one maintenance unload step moves exactly the least due model: a drain whose timeout has passed before a cancellation before a release; it is idle exactly when none is due, counts exactly the requests it cancelled, without quarantine fails only with the backend, and disturbs no task |
| Worker.InferenceWorker.MaintainUnloads | crates/engines/inference-runtime/src/worker.rs:239-255 | an unload step marks exactly the tasks of a model whose awaited unload reported cancelled requests, as timed out |
| Worker.InferenceWorker.TakeTurn | crates/engines/inference-runtime/src/worker.rs:340-340 | the scheduling step of the loop: exactly one turn of the least waiting task after the cursor |
| Worker.InferenceWorker.PullOutput | crates/adapters/host-runtime/src/token_output.rs:285-302 | the consumer may pull at any moment: it gets exactly what was published since its last pull, and the schedule is undisturbed |
| Worker.NothingRemains | crates/engines/inference-runtime/src/worker.rs:662-677 | with no model, quarantine or task left, the ledger is zero in all components and every model and sequence ever handed out has been released |
| Worker.WithinBudgetExactly | crates/engines/inference-runtime/src/runtime.rs:1841-1864 | in every reachable state host and device use stay within the budget in exact arithmetic, and the ledger equals the sum of everything resident, active, quarantined and scheduled |
| Worker.ScheduleTouched | crates/engines/inference-runtime/src/worker.rs:586-598 | a command that goes behind the scheduler costs one stream guarantee and nothing else |
| Worker.ScheduleQuiet | crates/engines/inference-runtime/src/worker.rs:236-240 | a step that starts and executes nothing keeps the whole schedule |
| TaskGraph.ValidateGraph | crates/features/task-graph/src/lib.rs:344-439 | with enough scratch: accepts exactly the graphs with unique ids, known, non-self and distinct edges, fitting counts and no cycle; reports a cycle exactly when only that is wrong; every other error names a real fault |
| TaskGraph.CountIncoming | crates/features/task-graph/src/lib.rs:358-383 | the counters are the exact in-degrees, and it fails exactly when one does not fit |
| TaskGraph.SeedQueue | crates/features/task-graph/src/lib.rs:385-391 | queues exactly the nodes without prerequisites |
| TaskGraph.ReleaseDependents | crates/features/task-graph/src/lib.rs:395-432 | the queue never overflows, a node is queued at most once, and the zero-count branch is never taken |
| TaskGraph.ReleasedEdge | crates/features/task-graph/src/lib.rs:408-426 | the count of a released edge is always positive |
| TaskGraph.Enqueued | crates/features/task-graph/src/lib.rs:426-430 | a node whose count reaches zero has all its prerequisites queued before it, and there is room for it |
| TaskGraph.AllQueued | crates/features/task-graph/src/lib.rs:434-438 | if every node was queued there is no cycle |
| TaskGraph.SomeStuck | crates/features/task-graph/src/lib.rs:434-438 | if some node was never queued there is a cycle |
| TaskGraph.OrderedIsAcyclic | crates/features/task-graph/src/lib.rs:344-439 | an order that puts prerequisites first rules out every closed walk |
| TaskGraph.StuckMeansCycle | crates/features/task-graph/src/lib.rs:344-439 | a nonempty set in which everybody waits for a member contains a closed walk |
| TaskGraph.ValidateNodes | crates/features/task-graph/src/lib.rs:933-943 | fails exactly on a duplicate id, and names one |
| TaskGraph.ValidateDependencies | crates/features/task-graph/src/lib.rs:945-964 | fails exactly on an unknown end, a self edge or a duplicate, and names one |
| TaskStates.TaskStateTable.Create | crates/features/task-graph/src/lib.rs:530-541 | a table is made over the given states exactly when there is one state per node |
| TaskStates.TaskStateTable.Start | crates/features/task-graph/src/lib.rs:559-600 | the specified transition, for any table and graph, aligned or not |
| TaskStates.TaskStateTable.SucceedAttempt | crates/features/task-graph/src/lib.rs:609-620 | the specified transition; only the current running attempt may succeed |
| TaskStates.TaskStateTable.FailAttempt | crates/features/task-graph/src/lib.rs:631-650 | the specified transition; the task is exhausted exactly when its budget is used up |
| TaskStates.TaskStateTable.CancelOne | crates/features/task-graph/src/lib.rs:659-676 | the specified transition; ended tasks stay as they are |
| TaskStates.TaskStateTable.PropagateBlocked | crates/features/task-graph/src/lib.rs:685-712 | for any graph and table: terminates, blocks only pending tasks with an unsuccessful prerequisite until none is left, returns their number, and fails only on an unknown prerequisite or a table shorter than the graph; on a matching table it always succeeds and blocks exactly the pending tasks reachable from an unsuccessful one through pending ones |
| TaskStates.TaskStateTable.ReadyTasks | crates/features/task-graph/src/lib.rs:722-752 | for any graph and table: succeeds exactly when the table covers the graph, no candidate has an unknown prerequisite in its way and the output has room, and then writes exactly the ready ids in node order; each error names its cause; on a matching table readiness is the declarative one |
| TaskStates.TaskStateTable.PrerequisitesSucceeded | crates/features/task-graph/src/lib.rs:966-990 | the scan answers the declarative verdict |
| TaskStates.TaskStateTable.HasUnsuccessfulPrerequisite | crates/features/task-graph/src/lib.rs:992-1019 | the scan answers the declarative verdict |
| TaskStates.SucceededMeans | crates/features/task-graph/src/lib.rs:966-990 | on a matching table the verdict is that every prerequisite succeeded |
| TaskStates.UnsuccessfulMeans | crates/features/task-graph/src/lib.rs:992-1019 | on a matching table the verdict is that some prerequisite ended unsuccessfully |
| TaskStates.TransitionKeeps | crates/features/task-graph/src/lib.rs:559-676 | every transition keeps the table invariant: attempts within budgets, blocked tasks have a cause, tasks past pending have succeeded prerequisites |
| TaskStates.PropagateKeeps | crates/features/task-graph/src/lib.rs:685-712 | propagation keeps the table invariant |
| TaskStates.PropagateSettles | crates/features/task-graph/src/lib.rs:685-712 | after propagation no pending task has an unsuccessful prerequisite |
| TaskStates.SweepDone | crates/features/task-graph/src/lib.rs:685-712 | a sweep that changes nothing has blocked exactly the doomed tasks |
| TaskStates.NoDeadlock | crates/features/task-graph/src/lib.rs:559-752 | in an acyclic graph with settled blocking, if nothing runs and nothing is ready then every task has ended |
| TaskStates.RunNeverDeadlocks | crates/features/task-graph/src/lib.rs:559-752 | the same after any run of operations from the default table followed by propagation |
| ArtifactFlow.ValidateArtifactFlow | crates/features/task-graph/src/lib.rs:461-470 | accepts exactly the flows with known tasks, unique artifacts, one output per task of the declared kind and one declared, directly ordered source per input; every error names a real fault |
| ArtifactFlow.ValidateTasks | crates/features/task-graph/src/lib.rs:780-795 | fails exactly on an unknown consumer or producer |
| ArtifactFlow.ValidateInputs | crates/features/task-graph/src/lib.rs:797-807 | fails exactly on a duplicate workflow input |
| ArtifactFlow.ValidateOutputs | crates/features/task-graph/src/lib.rs:809-836 | fails exactly on an output that is also a workflow input or has two producers |
| ArtifactFlow.ValidateContract | crates/features/task-graph/src/lib.rs:838-862 | fails exactly when the task has no output, two, or one of the wrong kind |
| ArtifactFlow.ValidateSource | crates/features/task-graph/src/lib.rs:864-920 | fails exactly when the input has no matching source that its consumer directly depends on |
| ArtifactFlow.DataFlowsForward | crates/features/task-graph/src/lib.rs:461-470 | in every order that respects the dependencies, a consumed artifact was produced by an earlier task |
| Workflow.WorkflowExecutor.ExecuteWorkflow | crates/engines/application-runtime/src/workflow/executor.rs:238-376 | for every behaviour of both ports: refused for a real reason, with nothing committed, announced or asked, exactly when not admitted; otherwise six new artifacts in order or one of three errors at one stage; every port call has the request of its stage and exactly the inputs the canonical flow declares for the task; each stage commits the whole last answer of its port; earlier artifacts never change; the event stream is exactly that of the attempts made; the verdict is that of the final report |
| Workflow.WorkflowExecutor.Admit | crates/engines/application-runtime/src/workflow/executor.rs:130-217 | succeeds exactly when the configuration has no fault, the artifact is a specification and every capacity and identity is there; a refusal names the check that really fails |
| Workflow.ConfigurationChecked | crates/engines/application-runtime/src/workflow/mod.rs:390-442 | a configuration is accepted exactly when no kind or policy is one that cannot run and no budget or limit is zero, and is refused for a fault it has |
| Workflow.WorkflowExecutor.RunStages | crates/engines/application-runtime/src/workflow/executor.rs:266-351 | six stages in order, each asked with exactly the declared inputs and committing exactly what was answered, up to the first that ends the workflow, whose error is the one its last answer calls for; no event, capacity, duplicate, graph or committed-artifact error can occur |
| Workflow.WorkflowExecutor.RunModelStage | crates/engines/application-runtime/src/workflow/executor.rs:379-440 | asks again after each failure, always for the same task with the declared inputs; commits exactly the text of the last answer, or ends with its failure and the attempts made, or with the exact size of an answer too large; announces exactly each attempt and retry |
| Workflow.WorkflowExecutor.RunValidationStage | crates/engines/application-runtime/src/workflow/executor.rs:443-503 | the same for a validation stage, which commits the whole report answered last and returns its verdict |
| Workflow.WorkflowExecutor.RunNormalizationStage | crates/engines/application-runtime/src/workflow/executor.rs:506-535 | one attempt: the raw report is always there, the committed report is exactly its normalization, and it is refused exactly for its size |
| Workflow.WorkflowExecutor.CommitOutput | crates/engines/application-runtime/src/workflow/executor.rs:575-609 | commits exactly when the size fits its own limit, and then the task always succeeds |
| Workflow.WorkflowExecutor.CheckSize | crates/engines/application-runtime/src/workflow/executor.rs:584-600 | overflow and excess are told apart, with the exact size and the limit configured for that kind of output |
| Workflow.WorkflowExecutor.HandleFailure | crates/engines/application-runtime/src/workflow/executor.rs:538-573 | schedules a retry exactly while the budget lasts, and otherwise reports the exact number of attempts and the last diagnostic |
| Workflow.WorkflowExecutor.BeginAttempt | crates/engines/application-runtime/src/workflow/executor.rs:398-404 | after admission an attempt always starts and is announced |
| Workflow.WorkflowExecutor.ValidatePlan | crates/engines/application-runtime/src/workflow/executor.rs:678-774 | the canonical plan always validates as a graph and as a flow |
| Workflow.WorkflowExecutor.InsertSpecification | crates/engines/application-runtime/src/workflow/executor.rs:85-102 | succeeds exactly within size, identity and store limits, under a new id; each error under its own condition |
| Workflow.WorkflowExecutor.ReserveTasks | crates/engines/application-runtime/src/workflow/executor.rs:173-182 | reserves six consecutive identities exactly when they exist |
| Workflow.WorkflowExecutor.ReserveOutputs | crates/engines/application-runtime/src/workflow/executor.rs:184-217 | the same for artifacts |
| Workflow.NeededFromStart | crates/engines/application-runtime/src/workflow/executor.rs:819-845 | the event capacity asked for at admission is exactly the length of the longest stream of events a run can announce, its completion included |
| Workflow.StageStarts | crates/engines/application-runtime/src/workflow/executor.rs:398-404 | the next attempt of the current stage can always start |
| Workflow.StageSucceeds | crates/engines/application-runtime/src/workflow/executor.rs:414-426 | its completion is always accepted and makes the next stage ready |
| Workflow.StageFails | crates/engines/application-runtime/src/workflow/executor.rs:538-573 | its failure is always accepted and leaves another attempt exactly while the budget does |
| WorkflowPlan.GraphStructured | crates/engines/application-runtime/src/workflow/executor.rs:678-774 | for any fresh identities the canonical graph has unique tasks and known, distinct edges |
| WorkflowPlan.GraphAcyclic | crates/engines/application-runtime/src/workflow/executor.rs:678-774 | it has no cycle |
| WorkflowPlan.FlowAccepted | crates/engines/application-runtime/src/workflow/executor.rs:678-774 | its artifact flow meets every rule of flow validation |
| WorkflowPlan.DeclaredInputs | crates/engines/application-runtime/src/workflow/executor.rs:266-351 | the inputs each port is given are exactly, and in order, those the canonical flow declares for its task: the final validation judges the revision |
| WorkflowPlan.DeclaredEarlier | crates/engines/application-runtime/src/workflow/executor.rs:745-757 | a task is only ever given the specification and outputs of earlier tasks |
| WorkflowArtifacts.ArtifactStore.Insert | crates/engines/application-runtime/src/workflow/artifact.rs:126-141 | inserts exactly a well-typed, new artifact that fits; never replaces; each error under exactly its condition |
| WorkflowArtifacts.ContentSize | crates/engines/application-runtime/src/workflow/executor.rs:855-922 | the exact persisted size, or nothing exactly when it does not fit 64 bits |
| WorkflowArtifacts.PayloadSize | crates/engines/application-runtime/src/workflow/executor.rs:855-922 | the size accounted for an artifact is the length of its payload: one byte for each choice, five for a present number, and every text as it is |
| WorkflowArtifacts.ReportSize | crates/engines/application-runtime/src/workflow/executor.rs:868-922 | adding finding by finding gives the exact size or overflows exactly when it does |
| Utf8.AcceptsExactly | crates/features/tokenization/src/utf8.rs:47-83 | all pushes and finish succeed if and only if the stream is well formed under section 4 of RFC 3629, and the text emitted is the stream |
| Utf8.CharactersAreScalars | crates/features/tokenization/src/utf8.rs:47-83 | the characters of the grammar are exactly the encodings of the Unicode scalar values, by the arithmetic of section 3 of RFC 3629 |
| Utf8.AnyChunking | crates/features/tokenization/src/utf8.rs:47-67 | any way of cutting a stream into pushes decodes as the whole stream does, errors included |
| Utf8.ChunksAgree | crates/features/tokenization/src/utf8.rs:47-67 | the same for one cut, from any decoder state |
| Utf8.NothingLost | crates/features/tokenization/src/utf8.rs:85-147 | without an error, what was emitted and what is pending are exactly the bytes fed |
| Utf8.EmitsCharacters | crates/features/tokenization/src/utf8.rs:129-147 | only whole characters are ever emitted |
| Utf8.ErrorsAreFinal | crates/features/tokenization/src/utf8.rs:85-127 | after an error no continuation of the stream could have been well formed |
| Utf8.FragmentIsText | crates/features/tokenization/src/utf8.rs:129-147 | for a lead byte with its continuation bytes, whole-string validation accepts exactly the single characters |
| Utf8.CharactersAccepted | crates/features/tokenization/src/utf8.rs:85-147 | every sequence of characters is accepted and emitted whole |
| Utf8.IncrementalUtf8Decoder.PushBytes | crates/features/tokenization/src/utf8.rs:47-67 | after a passed capacity check the sink never refuses a fragment, and the call does exactly what feeding the bytes one by one does; over all calls the object stays where decoding the whole stream at once would be; after an error no continuation of the stream could have been well formed; a failed check changes nothing |
| Utf8.IncrementalUtf8Decoder.PushByte | crates/features/tokenization/src/utf8.rs:85-127 | one byte moves text, pending bytes and error exactly as specified |
| Utf8.IncrementalUtf8Decoder.FlushComplete | crates/features/tokenization/src/utf8.rs:129-147 | a completed fragment is emitted exactly when it is one character, and dropped with its last byte reported otherwise |
| Utf8.IncrementalUtf8Decoder.Finish | crates/features/tokenization/src/utf8.rs:75-83 | succeeds if and only if everything pushed since the stream began, in however many calls and to whatever sinks, is well formed, and then exactly that has been emitted |
| Utf8.TextBuffer.PushText | crates/features/tokenization/src/sink.rs:258-282 | appends exactly what fits whole and refuses the rest unchanged |
| ContextPlanner.Plan | crates/features/context-planner/src/lib.rs:284-374 | every error exactly under its cause, naming a real duplicate or the exact token counts; otherwise a plan described in fields alone: each unpinned entry is selected if and only if it fits beside the pinned entries and the selected ones of higher priority, or retained against ephemeral, or larger ordinal, or smaller id; both lists go by ordinal, then id |
| ContextPlanner.PlanIsUnique | crates/features/context-planner/src/lib.rs:284-446 | for entries whose pinned ones fit there is exactly one plan of that description, and it is the one computed |
| ContextPlanner.SelectedExactly | crates/features/context-planner/src/lib.rs:327-346 | an unpinned entry is selected if and only if it fits beside the selected entries that outrank it and the pinned ones, within the budget less the reserve, or zero |
| ContextPlanner.PlacedBefore | crates/features/context-planner/src/lib.rs:413-446 | in candidate order exactly the entries that outrank one, written out field by field, stand before it |
| ContextPlanner.FillPlan | crates/features/context-planner/src/lib.rs:321-374 | greedy selection and both sorts in place give exactly the specified plan, in the result and in the arrays |
| ContextPlanner.PlanPartitions | crates/features/context-planner/src/lib.rs:284-374 | selected and dropped partition the entries and every pinned one is selected |
| ContextPlanner.PlanFits | crates/features/context-planner/src/lib.rs:327-364 | the token total is exactly that of the selected entries, within the budget, and fits 32 bits |
| ContextPlanner.PlanIsMaximal | crates/features/context-planner/src/lib.rs:327-346 | each dropped entry does not fit beside the pinned entries and the selected candidates before it, so none could be added to the plan |
| ContextPlanner.GreedyIsMaximal | crates/features/context-planner/src/lib.rs:327-346 | the greedy pass refuses an entry only when it does not fit beside what was taken before it |
| ContextPlanner.PlanIsOrdered | crates/features/context-planner/src/lib.rs:348-358 | both lists come out strictly ascending by ordinal and id |
| ContextPlanner.PlanIsOrderIndependent | crates/features/context-planner/src/lib.rs:284-374 | listing the same entries in another order selects and drops the same entries, in the same order, with the same total |
| ContextPlanner.TotalOrder | crates/features/context-planner/src/lib.rs:417-446 | both comparators order any two different entries one way |
| ContextPlanner.SortedEntries | crates/features/context-planner/src/lib.rs:417-446 | sorting lists exactly the given entries, ascending |
| ContextPlanner.SortIndices | crates/features/context-planner/src/lib.rs:325-358 | the in-place sort of an index prefix gives exactly the sorted indices |
| ContextPlanner.SplitPinned | crates/features/context-planner/src/lib.rs:298-312 | splits pinned from candidate indices in one pass, with the exact saturated token total |
| ContextPlanner.TakeCandidates | crates/features/context-planner/src/lib.rs:327-346 | the greedy pass writes exactly the taken and the refused indices and the exact total |
| ContextPlanner.ValidateUniqueIds | crates/features/context-planner/src/lib.rs:388-398 | fails exactly on a duplicate id, and names one |
| RecordCodec.SettingsCanonical | crates/adapters/redb-storage/src/lib.rs:361-385 | bytes decode to a settings record if and only if they are its own encoding, magic, version and fields spelled out, neither text is all white space and the drain timeout is not zero: decoding inverts encoding and no other bytes decode to it |
| RecordCodec.ModelCanonical | crates/adapters/redb-storage/src/lib.rs:387-420 | the same for model records, none of whose three texts may be all white space |
| RecordCodec.KindsAreDisjoint | crates/adapters/redb-storage/src/lib.rs:361-420 | no bytes decode as both kinds of record |
| RecordCodec.TextReads | crates/adapters/redb-storage/src/lib.rs:504-516 | a string is read from exactly its own encoding, which must be UTF-8 |
| RecordCodec.TextIsWellFormed | crates/adapters/redb-storage/src/lib.rs:504-516 | the byte-wise test of a string accepts exactly the well-formed UTF-8 of section 4 of RFC 3629 |
| RecordCodec.BlankExactly | crates/adapters/redb-storage/src/lib.rs:422-428 | trimming leaves nothing of a text exactly when it is a sequence of code points with the property White_Space |
| RecordCodec.IntegerReads | crates/adapters/redb-storage/src/lib.rs:462-502 | an integer is read from exactly its little-endian encoding |
| RecordCodec.HeaderReads | crates/adapters/redb-storage/src/lib.rs:444-460 | a header is read from exactly the magic and the version |
| RecordCodec.EncodeSettings | crates/adapters/redb-storage/src/lib.rs:361-371 | fails exactly for the first string too long for the format, with its length, and otherwise writes the canonical bytes |
| RecordCodec.EncodeModel | crates/adapters/redb-storage/src/lib.rs:387-401 | the same for model records |
| RecordCodec.DecodeSettings | crates/adapters/redb-storage/src/lib.rs:373-385 | the decoder object computes the specified reading, errors included |
| RecordCodec.DecodeModel | crates/adapters/redb-storage/src/lib.rs:403-420 | the same for model records |
| RecordCodec.Decoder.Text | crates/adapters/redb-storage/src/lib.rs:504-516 | reads the next string and advances exactly past it |
| RecordCodec.Decoder.Integer | crates/adapters/redb-storage/src/lib.rs:462-502 | reads the next integer and advances exactly past it, or stays |
| RecordCodec.Decoder.Finish | crates/adapters/redb-storage/src/lib.rs:518-524 | succeeds exactly at the end of the bytes |
| GgufHeader.InspectsExactly | crates/adapters/gguf-backend/src/metadata.rs:198-279 | on any written header within the limits, parsing succeeds with a summary if and only if the entries describe it in their own keys: the text under general.architecture, one nonzero integer under that name with each literal suffix, key-value heads dividing the heads or absent, the number of tokens, the file type, each key once; exactly the header bytes are consumed |
| GgufHeader.InspectMetadata | crates/adapters/gguf-backend/src/metadata.rs:188-225 | on any bytes whatever, the inspection succeeds exactly with the summary described by the header those bytes start with, and only if they start with one |
| GgufHeader.FinishMeans | crates/adapters/gguf-backend/src/metadata.rs:236-298 | collecting the fields and checking them finds exactly what the keys of the entries describe |
| GgufHeader.AcceptedIsWritten | crates/adapters/gguf-backend/src/metadata.rs:198-225 | whatever is accepted is a header: magic, version 2 or 3, and supported entries within every limit |
| GgufHeader.AimsByName | crates/adapters/gguf-backend/src/metadata.rs:281-352 | a key belongs to a field exactly when it is spelled so: a literal key, or a nonempty dot-free name and the literal suffix of the field; no key belongs to two |
| GgufHeader.OrderDoesNotMatter | crates/adapters/gguf-backend/src/metadata.rs:198-279 | writing the entries of an accepted header in another order gives the same metadata |
| GgufHeader.SkipIsExact | crates/adapters/gguf-backend/src/metadata.rs:395-428 | skipping a supported value consumes exactly its encoded length |
| GgufHeader.EntriesRead | crates/adapters/gguf-backend/src/metadata.rs:198-225 | reading a list of entries consumes exactly its bytes and succeeds exactly when collecting does |
| GgufHeader.ValueReads | crates/adapters/gguf-backend/src/metadata.rs:300-347 | a value is read according to its key alone, consuming exactly its bytes |
| GgufHeader.TokensRead | crates/adapters/gguf-backend/src/metadata.rs:369-393 | a token array gives its element count, unless it is not one, too long or repeated |
| GgufHeader.TypedReads | crates/adapters/gguf-backend/src/metadata.rs:430-446 | an integer is read from exactly the integer types that hold a value in range |
| GgufHeader.AbsorbsExactly | crates/adapters/gguf-backend/src/metadata.rs:300-367 | collecting succeeds exactly for entries that set each field at most once, and collects exactly what they set |
| GgufHeader.BoundedReader.InspectHeader | crates/adapters/gguf-backend/src/metadata.rs:198-225 | the reader object computes the specified parse of any bytes, malformed or truncated, and never passes its byte limit |
| GgufHeader.BoundedReader.Skip | crates/adapters/gguf-backend/src/metadata.rs:491-505 | skipping through a fixed buffer is skipping at once |
| GgufHeader.BoundedReader.SkipOne | crates/adapters/gguf-backend/src/metadata.rs:395-428 | skips one value as specified, for any type code |
| GgufHeader.BoundedReader.MetadataValue | crates/adapters/gguf-backend/src/metadata.rs:300-347 | reads one value as specified, for any key and type code |
| GgufHeader.BoundedReader.Tokens | crates/adapters/gguf-backend/src/metadata.rs:369-393 | reads or refuses one token array as specified |
| GgufHeader.BoundedReader.Integer | crates/adapters/gguf-backend/src/metadata.rs:430-442 | reads one integer as specified, for any type code |
| GgufHeader.BoundedReader.Exactly | crates/adapters/gguf-backend/src/metadata.rs:507-518 | takes exactly the bytes asked for, or reports whether the limit or the file fell short |

## Left out

- Snapshots, last-cleanup reports, maintenance errors and the usage field of receipts: read-only views.
- `remaining_budget` as an argument of the loader: the loader's answers are arbitrary.
- The logits-capacity test after a started generation and the cleanup branch after the second `start_request` (runtime.rs:584-627): proved unreachable, so not repeated as code.
- The zero-count branch of `validate_graph` and the decode phase without a generated token: proved unreachable, so not repeated as code.
- Allocation failure: an early error before anything is committed, left out everywhere.
- `reset_sequence` and `synchronize`: never called by the registry.
- Sampling arithmetic: an opaque deterministic function of sampler state, logits and history, its scratch included.
- Model metadata: a vocabulary size and a fingerprint that compares equal exactly when the metadata does.
- Threads, channels, wall clock, sleeps, joins: a busy consumer is a refused push and time is a parameter.
- The worker's event queues, pending-unload maps, disconnect handling and drop order at exit; no order of events is claimed.
- Direct prefill and decode commands on a scheduled request: the request keeps every other guarantee but its stream is no longer compared with the simple loop.
- The capacity a yield record reports: published, but not constrained beyond its kind.
- The registry is one record in one field of `InferenceRuntime` rather than a dozen separate fields: the order in which those fields are written within a step is not captured.
- Runtime.InferenceRuntime.Shutdown: on an unsafe registry, which of the two errors occurs depends on the answers of the backend; the moves it took determine it.
- Generation.NeverExhausted: that a created sequence is empty is a premise, because the registry relies on the backend for it and never checks it.
- ContextPlanner.SortIndices: the library's unstable sort is modelled by an insertion sort; only its result, which is unique here, is claimed.
- Utf8.TextBuffer.PushText: the text sink is the fixed buffer only; growing sinks always have room.
- Normalization of diagnostics: an opaque function of the findings.
- Architecture classification, quantization names, cache sizing and file access of the GGUF adapter: table lookups and I/O.
- The collected GGUF record is a map from field to value instead of a struct of options.
- Database transactions, listing and validation of stored keys around the record codec: the database library's business.
- User interface, paths, hub client, tokenizer and model adapters, configuration files and process entry points: plumbing or foreign libraries.
