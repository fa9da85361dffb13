// The inference registry (runtime.rs): one object owning models, requests,
// quarantined resources, indices and the memory ledger.
module Runtime {
  import opened Common
  import opened Footprints
  import opened Lifecycle
  import opened RuntimeTypes
  import opened BackendProtocol
  import opened Backends
  import opened Registry
  import opened RegistryIndices
  import opened RegistrySteps
  import opened RegistryModelSteps
  import opened RegistryAdmission
  import opened RuntimeSpec
  import ShutdownSpec

  function Subtract(a: Footprint, b: Footprint): (r: Outcome<Footprint>)
    ensures r.Ok? <==> AtMost(b, a)
    ensures r.Ok? ==> r.value == Minus(a, b)
    ensures r.Err? ==> r.error == MemoryUnderflow
  {
    if CheckedSub(a, b).Ok? then Ok(CheckedSub(a, b).value) else Err(MemoryUnderflow)
  }

  function Add(a: Footprint, b: Footprint): (r: Outcome<Footprint>)
    ensures r.Ok? <==> FitsU64(Plus(a, b))
    ensures r.Ok? ==> r.value == Plus(a, b)
    ensures r.Err? ==> r.error == MemoryOverflow
  {
    if CheckedAdd(a, b).Ok? then Ok(CheckedAdd(a, b).value) else Err(MemoryOverflow)
  }

  // admit_footprint: the next total, if it fits the integers and the budget.
  function Admit(current: Footprint, additional: Footprint, budget: Budget): (r: Outcome<Footprint>)
    ensures r.Ok? <==> FitsU64(Plus(current, additional)) && WithinBudget(Plus(current, additional), budget)
    ensures r.Ok? ==> r.value == Plus(current, additional)
    ensures r.Err? ==> r.error == MemoryOverflow || r.error.InsufficientMemory?
    ensures MemoryRefused(current, additional, budget, r)
  {
    var next := Add(current, additional);
    if next.Err? then next
    else if HostBytes(next.value) > budget.host then
      Err(InsufficientMemory(Host, HostBytes(next.value), budget.host))
    else if DeviceBytes(next.value) > budget.device then
      Err(InsufficientMemory(Device, DeviceBytes(next.value), budget.device))
    else next
  }

  // The registry object. Its mutable fields are held as one record, which every
  // operation updates step by step.
  class InferenceRuntime {
    const limits: Limits
    const backend: Backend
    var registry: Registry
    var shuttingDown: bool

    ghost predicate Valid()
      reads this, backend
    {
      && LimitsOk(limits)
      && backend.Valid()
      && backend.maximumAttempts == limits.maximumAttempts
      && Consistent(registry, limits, backend.world)
    }

    constructor (backend: Backend, limits: Limits)
      requires backend.Valid() && backend.log == [] && backend.maximumAttempts == limits.maximumAttempts
      requires LimitsOk(limits)
      ensures Valid()
      ensures this.backend == backend && this.limits == limits && !shuttingDown
      ensures registry == EmptyRegistry()
    {
      hide Consistent, Lawful;
      this.backend := backend;
      this.limits := limits;
      registry := EmptyRegistry();
      shuttingDown := false;
      new;
      EmptyIsConsistent(limits);
    }

    // release_model_with_primary: after the checks, one prepare_unload; on failure the
    // model is quarantined with its footprint still reserved.
    method ReleaseModelWithPrimary(m: ModelId, operation: RuntimeOperation, failure: FailureClass)
      returns (r: Outcome<()>, ghost unloaded: bool)
      requires Valid()
      modifies this`registry, backend`log, backend`world
      ensures Valid()
      ensures Effect(registry, r) == Release(old(registry), limits, m, operation, failure, unloaded)
      ensures backend.log == old(backend.log) + ReleaseCalls(old(registry), m, unloaded)
    {
      hide Consistent, Lawful, Replay, Allowed, Apply, Minus, AtMost;
      ghost var g, w := registry, backend.world;
      unloaded := true;
      if m !in registry.models {
        return Err(ModelNotLoaded(m)), unloaded;
      }
      var slot := registry.models[m];
      ReleaseFacts(g, limits, w, m);
      if slot.requests != map[] || slot.pendingSequences != map[] || slot.lifecycle != Unloading || slot.reserved != slot.modelFootprint {
        return Err(LifecycleFailed(InvalidTransition)), unloaded;
      }
      var ok := backend.UnloadModel(slot.model);
      unloaded := ok;
      if !ok {
        var report := CleanupReport(operation, failure, ModelUnloading, SynchronizationFailure);
        registry := registry.(models := registry.models - {m});
        var pending := PendingModel(slot.model, slot.modelFootprint, report, 1, slot.cancelledDuringUnload);
        registry := registry.(pendingModels := registry.pendingModels[m := pending]);
        QuarantineModelKeeps(g, limits, w, m, report);
        return Err(RetentionError(RetryState(ModelResource(m), report, 1, limits.maximumAttempts))), unloaded;
      }
      registry := registry.(models := registry.models - {m});
      DropModelKeeps(g, limits, w, m);
      var next := Subtract(registry.reserved, slot.modelFootprint);
      if next.Err? {
        return Err(MemoryUnderflow), unloaded;
      }
      registry := registry.(reserved := next.value, modelOwners := registry.modelOwners - {slot.model.key});
      return Ok(()), unloaded;
    }

    // remove_request: destroys the sequence, or quarantines it; the last request of a
    // model that is being unloaded releases the model too.
    method RemoveRequest(r: RequestId, operation: RuntimeOperation, failure: FailureClass)
      returns (result: Outcome<()>, ghost destroyed: bool, ghost unloaded: bool)
      requires Valid()
      modifies this`registry, backend`log, backend`world
      ensures Valid()
      ensures r in old(registry).requestIndex ==> HasRequest(old(registry), r)
      ensures Effect(registry, result) == Remove(old(registry), limits, r, operation, failure, destroyed, unloaded)
      ensures backend.log == old(backend.log) + RemoveCalls(old(registry), r, destroyed, unloaded)
    {
      hide Consistent, Lawful, Replay, Allowed, Apply, Minus, AtMost, AfterFinish;
      ghost var g, w := registry, backend.world;
      destroyed, unloaded := true, true;
      if r !in registry.requestIndex {
        return Err(RequestNotActive(r)), destroyed, unloaded;
      }
      RemoveFacts(g, limits, w, r);
      var m := registry.requestIndex[r];
      var slot := registry.models[m];
      var request := slot.requests[r];
      var finished := AfterFinish(slot.lifecycle);
      var ok := backend.DestroySequence(request.sequence);
      destroyed := ok;
      if finished.result.Err? {
        return Err(LifecycleFailed(InvalidTransition)), destroyed, unloaded;
      }
      if !ok {
        var kept := KeepFailed(r, operation, failure, finished.next, g, w);
        return Err(kept), destroyed, unloaded;
      }
      LetGo(r, finished.next, g, w);
      if finished.result == Ok(ReleaseModel) {
        result, unloaded := ReleaseModelWithPrimary(m, operation, failure);
        return;
      }
      return Ok(()), destroyed, unloaded;
    }

    // The failure half of remove_request: the sequence is quarantined, its workspace
    // leaves the slot's ledger, and the lifecycle counts one request less.
    method KeepFailed(r: RequestId, operation: RuntimeOperation, failure: FailureClass, lifecycle: State, ghost g: Registry, ghost w: World)
      returns (error: RuntimeError)
      requires LimitsOk(limits) && backend.Valid() && backend.maximumAttempts == limits.maximumAttempts
      requires registry == g && Consistent(g, limits, w) && HasRequest(g, r)
      requires lifecycle == AfterFinish(SlotOf(g, r).lifecycle).next
      requires AtMost(RequestOf(g, r).workspaceFootprint, SlotOf(g, r).reserved)
      requires backend.world == Apply(w, Destroy(RequestOf(g, r).sequence.key, false))
      modifies this`registry
      ensures Valid()
      ensures Effect(registry, Err(error)) == Remove(g, limits, r, operation, failure, false, true)
      ensures forall unloaded :: Remove(g, limits, r, operation, failure, false, unloaded) == Remove(g, limits, r, operation, failure, false, true)
    {
      hide Consistent, Lawful, Replay, Allowed, Apply, Minus, AtMost, AfterFinish;
      var m := registry.requestIndex[r];
      var slot := registry.models[m];
      var request := slot.requests[r];
      var sid := request.sequence.id;
      var report := CleanupReport(operation, failure, SequenceDestruction, SequenceFailure);
      var pending := PendingSequence(r, sid, request.sequence, request.backendFootprint, report, 1);
      var remaining := Subtract(slot.reserved, request.workspaceFootprint);
      if remaining.Err? {
        return MemoryUnderflow;
      }
      slot := slot.(requests := slot.requests - {r},
                    pendingSequences := slot.pendingSequences[r := pending],
                    reserved := remaining.value,
                    poisoned := true,
                    lifecycle := lifecycle);
      registry := registry.(models := registry.models[m := slot],
                            requestIndex := registry.requestIndex - {r},
                            sequenceIndex := registry.sequenceIndex - {sid},
                            pendingRequestIndex := registry.pendingRequestIndex[r := m],
                            pendingSequenceIndex := registry.pendingSequenceIndex[sid := r],
                            activeRequests := registry.activeRequests - 1,
                            pendingCleanupSequences := registry.pendingCleanupSequences + 1);
      QuarantineRequestKeeps(g, limits, w, r, report);
      return RetentionError(RetryState(SequenceResource(m, r, sid), report, 1, limits.maximumAttempts));
    }

    // The success half: the request leaves both ledgers and the lifecycle.
    method LetGo(r: RequestId, lifecycle: State, ghost g: Registry, ghost w: World)
      requires LimitsOk(limits) && backend.Valid() && backend.maximumAttempts == limits.maximumAttempts
      requires registry == g && Consistent(g, limits, w) && HasRequest(g, r)
      requires lifecycle == AfterFinish(SlotOf(g, r).lifecycle).next
      requires AtMost(WholeRequest(RequestOf(g, r)), SlotOf(g, r).reserved) && FitsU64(WholeRequest(RequestOf(g, r)))
      requires AtMost(RequestOf(g, r).backendFootprint, g.reserved)
      requires backend.world == Apply(w, Destroy(RequestOf(g, r).sequence.key, true))
      modifies this`registry
      ensures Valid()
      ensures registry == DropRequest(g, r)
    {
      hide Consistent, Lawful, Replay, Allowed, Apply, Minus, AtMost, AfterFinish, FitsU64, Plus;
      var m := registry.requestIndex[r];
      var slot := registry.models[m];
      var request := slot.requests[r];
      var sid := request.sequence.id;
      var total := Add(request.backendFootprint, request.workspaceFootprint);
      if total.Err? {
        return;
      }
      var left := Subtract(slot.reserved, total.value);
      if left.Err? {
        return;
      }
      slot := slot.(requests := slot.requests - {r}, reserved := left.value, lifecycle := lifecycle);
      registry := registry.(models := registry.models[m := slot],
                            requestIndex := registry.requestIndex - {r},
                            sequenceIndex := registry.sequenceIndex - {sid},
                            activeRequests := registry.activeRequests - 1);
      var next := Subtract(registry.reserved, request.backendFootprint);
      if next.Err? {
        return;
      }
      registry := registry.(reserved := next.value, sequenceOwners := registry.sequenceOwners - {request.sequence.key});
      DropRequestKeeps(g, limits, w, r);
    }

    // Drains a model by cancelling its requests in id order; stops at the first
    // request or model that cannot be released.
    method CancelAllRequests(m: ModelId) returns (r: Outcome<nat>, ghost steps: seq<Removal>)
      requires Valid()
      modifies this`registry, backend`log, backend`world
      ensures Valid()
      ensures Quiet(old(registry), registry) && OthersKept(old(registry), registry, m)
      ensures m !in old(registry).models ==> r == Err(ModelNotLoaded(m)) && registry == old(registry)
      ensures m in old(registry).models && r.Ok? ==>
        && r.value == Min(U32_MAX, old(registry).models[m].cancelledDuringUnload + |old(registry).models[m].requests|)
        && (m in registry.models ==> registry.models[m].requests == map[])
        && registry.pendingModels == old(registry).pendingModels
      ensures m in old(registry).models && r.Err? ==>
        r.error.RetainsResource() || r.error == LifecycleFailed(InvalidTransition)
      ensures m in old(registry).models ==> Cancels(old(registry), limits, m, steps, registry, WithoutCount(r))
      ensures old(backend.log) <= backend.log
      ensures m in registry.models && !old(registry).models[m].lifecycle.Accepting() ==> !registry.models[m].lifecycle.Accepting()
      ensures m in old(registry).models && Flawless(old(backend.log), backend.log) && CleanModel(old(registry), m) ==> r.Ok? && CleanModel(registry, m)
    {
      hide Consistent, Lawful, Replay, Remove, Quiet, OthersKept, RemoveCalls, Flawless, Cancels, CancelStep, CleanModel;
      ghost var g, log := registry, backend.log;
      steps := [];
      QuietReflexive(g, m);
      FlawlessSelf(log);
      NothingCancelled(g, limits, m);
      if m !in registry.models {
        return Err(ModelNotLoaded(m)), steps;
      }
      var cancelled: nat := Min(U32_MAX, registry.models[m].cancelledDuringUnload);
      while m in registry.models && registry.models[m].requests != map[]
        invariant Valid()
        invariant Quiet(g, registry) && OthersKept(g, registry, m)
        invariant m in registry.models && registry.pendingModels == g.pendingModels
        invariant log <= backend.log && (Flawless(log, backend.log) && CleanModel(g, m) ==> CleanModel(registry, m))
        invariant !g.models[m].lifecycle.Accepting() ==> !registry.models[m].lifecycle.Accepting()
        invariant cancelled == Min(U32_MAX, g.models[m].cancelledDuringUnload + |g.models[m].requests| - |registry.models[m].requests|)
        invariant |registry.models[m].requests| <= |g.models[m].requests|
        invariant Cancels(g, limits, m, steps, registry, Ok(())) && cancelled == Min(U32_MAX, registry.models[m].cancelledDuringUnload)
        decreases |registry.models[m].requests|
      {
        ghost var before, called := registry, backend.log;
        var outcome;
        ghost var step;
        outcome, step := CancelFirst(m, cancelled);
        FlawlessParts(log, called, backend.log);
        QuietTransitive(g, before, registry);
        OthersKeptTransitive(g, before, registry, m);
        CancelsThen(g, limits, m, steps, before, step, registry, outcome);
        JustDone(outcome);
        steps := steps + [step];
        if outcome.Err? {
          return Err(outcome.error), steps;
        }
        cancelled := Min(U32_MAX, cancelled + 1);
        if m !in registry.models {
          break;
        }
      }
      return Ok(cancelled), steps;
    }

    // One turn of the loop: the least request goes, and the slot counts it unless the
    // lifecycle refused.
    method CancelFirst(m: ModelId, cancelled: nat) returns (outcome: Outcome<()>, ghost step: Removal)
      requires Valid()
      requires m in registry.models && registry.models[m].requests != map[] && cancelled == Min(U32_MAX, registry.models[m].cancelledDuringUnload)
      modifies this`registry, backend`log, backend`world
      ensures Valid()
      ensures CancelStep(old(registry), limits, m, step, registry, outcome)
      ensures Quiet(old(registry), registry) && OthersKept(old(registry), registry, m)
      ensures CancelledFirst(old(registry), registry, m, cancelled, outcome)
      ensures old(backend.log) <= backend.log
      ensures Flawless(old(backend.log), backend.log) && CleanModel(old(registry), m) ==> outcome.Ok? && CleanModel(registry, m)
    {
      hide Consistent, Lawful, Replay, Remove, Quiet, OthersKept, RemoveCalls, Flawless, CancelStep, CleanModel;
      ghost var before, called := registry, backend.log;
      var request := FirstKey(registry.models[m].requests);
      RemoveNext(before, limits, backend.world, m, request);
      ghost var destroyed, unloaded;
      outcome, destroyed, unloaded := RemoveRequest(request, Cancellation, CancellationClass);
      step := Removal(request, destroyed, unloaded);
      CancelledOne(before, limits, m, request, Cancellation, CancellationClass, destroyed, unloaded, called);
      ghost var removed := registry;
      if (outcome.Ok? || outcome.error.RetainsResource()) && m in registry.models {
        var count := Min(U32_MAX, cancelled + 1);
        RelabelIsQuiet(removed, limits, backend.world, m, count);
        registry := registry.(models := registry.models[m := registry.models[m].(cancelledDuringUnload := count)]);
        QuietTransitive(before, removed, registry);
        OthersKeptTransitive(before, removed, registry, m);
        CleanAlike(removed, registry, m);
      }
      CancelTurn(limits, m, before, step, removed, outcome, registry);
    }

    // Shutdown's draining loop: a request that cannot be destroyed is quarantined and
    // the loop goes on.
    method CancelAllForShutdown(m: ModelId, ghost todo: set<ModelId>) returns (r: Outcome<nat>, ghost moves: seq<ShutdownSpec.Move>)
      requires Valid()
      modifies this`registry, backend`log, backend`world
      ensures Valid()
      ensures Quiet(old(registry), registry) && OthersKept(old(registry), registry, m)
      ensures r.Ok? && m in registry.models ==> registry.models[m].requests == map[]
      ensures r.Err? ==> r.error == LifecycleFailed(InvalidTransition)
      ensures m in registry.models ==> m in old(registry).models
      ensures m in registry.models && !old(registry).models[m].lifecycle.Accepting() ==> !registry.models[m].lifecycle.Accepting()
      ensures r.Ok? ==> r.value + |registry.requestIndex| == |old(registry).requestIndex|
      ensures IsLeast(m, todo) && (m in old(registry).models ==> !old(registry).models[m].lifecycle.Accepting()) ==>
        ShutdownSpec.Leads(limits, old(registry), todo, moves, registry, todo, ShutdownSpec.Judge(r))
      ensures old(backend.log) <= backend.log
      ensures Flawless(old(backend.log), backend.log) && CleanModel(old(registry), m) ==> r.Ok? && CleanModel(registry, m)
    {
      hide Consistent, Lawful, Replay, Remove, Quiet, OthersKept, RemoveCalls, Flawless, CleanModel, ShutdownSpec.Leads;
      ghost var g, log := registry, backend.log;
      ghost var due := IsLeast(m, todo) && (m in g.models ==> !g.models[m].lifecycle.Accepting());
      moves := [];
      ActiveBounded(g, limits, backend.world);
      ShutdownSpec.LeadsNowhere(limits, g, todo);
      QuietReflexive(g, m);
      FlawlessSelf(log);
      var cancelled: nat := 0;
      while m in registry.models && registry.models[m].requests != map[]
        invariant Valid()
        invariant Quiet(g, registry) && OthersKept(g, registry, m)
        invariant m in registry.models ==> m in g.models
        invariant log <= backend.log && (Flawless(log, backend.log) && CleanModel(g, m) ==> CleanModel(registry, m))
        invariant m in registry.models && !g.models[m].lifecycle.Accepting() ==> !registry.models[m].lifecycle.Accepting()
        invariant cancelled + |registry.requestIndex| == |g.requestIndex|
        invariant due ==> ShutdownSpec.Leads(limits, g, todo, moves, registry, todo, ShutdownSpec.Going)
        decreases if m in registry.models then |registry.models[m].requests| else 0
      {
        ghost var before, called := registry, backend.log;
        var request := FirstKey(registry.models[m].requests);
        RemoveNext(before, limits, backend.world, m, request);
        var outcome;
        ghost var destroyed, unloaded;
        outcome, destroyed, unloaded := RemoveRequest(request, ShutdownOperation, ShutdownClass);
        if due {
          ghost var move := ShutdownSpec.CancelNext(m, request, destroyed, unloaded);
          ShutdownSpec.CancelLeads(limits, before, todo, m, request, destroyed, unloaded);
          ShutdownSpec.LeadsThen(limits, g, todo, moves, before, todo, [move], registry, todo, ShutdownSpec.Judge(outcome));
          moves := moves + [move];
        }
        CancelledOne(before, limits, m, request, ShutdownOperation, ShutdownClass, destroyed, unloaded, called);
        FlawlessParts(log, called, backend.log);
        QuietTransitive(g, before, registry);
        OthersKeptTransitive(g, before, registry, m);
        if outcome.Err? && !outcome.error.RetainsResource() {
          return Err(outcome.error), moves;
        }
        cancelled := Min(U32_MAX, cancelled + 1);
      }
      return Ok(cancelled), moves;
    }

    // The selection of poll_cleanup: the first retryable sequence, else the first retryable model.
    method SelectCleanup() returns (c: Cleanup)
      ensures NextCleanup(registry, limits, c)
    {
      var models := set m | m in registry.models && RetryableRequests(registry.models[m], limits.maximumAttempts) != {};
      assert forall m, r :: SequenceRetryable(registry, limits, m, r)
               <==> m in registry.models && r in RetryableRequests(registry.models[m], limits.maximumAttempts);
      assert forall m, r :: SequenceRetryable(registry, limits, m, r) ==> m in models;
      if models != {} {
        var m := First(models);
        var r := First(RetryableRequests(registry.models[m], limits.maximumAttempts));
        return RetryOf(m, r);
      }
      var pending := set m | m in registry.pendingModels && registry.pendingModels[m].attempts < limits.maximumAttempts;
      assert forall m :: ModelRetryable(registry, limits, m) <==> m in pending;
      if pending != {} {
        var m := First(pending);
        return RetryOfModel(m);
      }
      return NothingToRetry;
    }

    // The sequence half of poll_cleanup, for the selected request.
    method RetryQuarantined(m: ModelId, r: RequestId)
      returns (result: Outcome<CleanupPoll>, ghost released: bool, ghost unloaded: bool)
      requires Valid()
      requires NextCleanup(registry, limits, RetryOf(m, r))
      modifies this`registry, backend`log, backend`world
      ensures Valid()
      ensures HasQuarantined(old(registry), m, r)
      ensures Effect(registry, result) == CleanupEffect(old(registry), limits, RetryOf(m, r), released, unloaded)
      ensures backend.log == old(backend.log) + CleanupCalls(old(registry), limits, RetryOf(m, r), released, unloaded)
    {
      hide Consistent, Lawful, Replay, Allowed, Apply, Minus, AtMost, Release, ReleaseCalls, NextCleanup;
      ghost var g, w := registry, backend.world;
      unloaded := true;
      RetryFacts(g, limits, w, m, r);
      var slot := registry.models[m];
      var pending := slot.pendingSequences[r];
      pending := pending.(attempts := pending.attempts + 1);
      slot := slot.(pendingSequences := slot.pendingSequences[r := pending]);
      registry := registry.(models := registry.models[m := slot]);
      var state := RetryState(SequenceResource(m, r, pending.sequenceId), pending.failure, pending.attempts, limits.maximumAttempts);
      var ok := backend.DestroySequence(pending.sequence);
      released := ok;
      if !ok {
        RetrySequenceKeeps(g, limits, w, m, r);
        return Ok(PollFailed(state)), released, unloaded;
      }
      var left := Subtract(slot.reserved, pending.footprint);
      if left.Err? {
        return Err(MemoryUnderflow), released, unloaded;
      }
      slot := slot.(pendingSequences := slot.pendingSequences - {r}, reserved := left.value);
      slot := slot.(poisoned := slot.pendingSequences != map[]);
      var next := Subtract(registry.reserved, pending.footprint);
      if next.Err? {
        return Err(MemoryUnderflow), released, unloaded;
      }
      registry := registry.(models := registry.models[m := slot],
                            pendingRequestIndex := registry.pendingRequestIndex - {r},
                            pendingSequenceIndex := registry.pendingSequenceIndex - {pending.sequenceId},
                            pendingCleanupSequences := registry.pendingCleanupSequences - 1,
                            reserved := next.value,
                            sequenceOwners := registry.sequenceOwners - {pending.sequence.key});
      RetriedThenDropped(g, m, r);
      assert registry == DropQuarantined(g, m, r);
      DropQuarantinedKeeps(g, limits, w, m, r);
      if slot.lifecycle == Unloading {
        var release;
        release, unloaded := ReleaseModelWithPrimary(m, pending.failure.primaryOperation, pending.failure.primaryFailure);
        if release.Err? && !release.error.RetainsResource() {
          return Err(release.error), released, unloaded;
        }
      }
      return Ok(CleanupPoll.Released(state)), released, unloaded;
    }

    // The model half of poll_cleanup, for the selected model.
    method RetryPendingModel(m: ModelId) returns (result: Outcome<CleanupPoll>, ghost released: bool)
      requires Valid()
      requires NextCleanup(registry, limits, RetryOfModel(m))
      modifies this`registry, backend`log, backend`world
      ensures Valid()
      ensures Effect(registry, result) == CleanupEffect(old(registry), limits, RetryOfModel(m), released, true)
      ensures backend.log == old(backend.log) + CleanupCalls(old(registry), limits, RetryOfModel(m), released, true)
    {
      hide Consistent, Lawful, Replay, Allowed, Apply, Minus, AtMost, NextCleanup;
      ghost var g, w := registry, backend.world;
      RetryModelFacts(g, limits, w, m);
      var pending := registry.pendingModels[m];
      pending := pending.(attempts := pending.attempts + 1);
      registry := registry.(pendingModels := registry.pendingModels[m := pending]);
      var state := RetryState(ModelResource(m), pending.failure, pending.attempts, limits.maximumAttempts);
      var ok := backend.UnloadModel(pending.model);
      released := ok;
      if !ok {
        RetryModelKeeps(g, limits, w, m);
        return Ok(PollFailed(state)), released;
      }
      DropPendingModelKeeps(g, limits, w, m);
      registry := registry.(pendingModels := registry.pendingModels - {m});
      assert registry.pendingModels == g.pendingModels - {m};
      var next := Subtract(registry.reserved, pending.footprint);
      if next.Err? {
        return Err(MemoryUnderflow), released;
      }
      registry := registry.(reserved := next.value, modelOwners := registry.modelOwners - {pending.model.key});
      return Ok(CleanupPoll.Released(state)), released;
    }

    // poll_cleanup: at most one retry; a released sequence may let its model go too.
    method PollCleanup() returns (result: Outcome<CleanupPoll>, ghost c: Cleanup, ghost released: bool, ghost unloaded: bool)
      requires Valid()
      modifies this`registry, backend`log, backend`world
      ensures Valid()
      ensures NextCleanup(old(registry), limits, c)
      ensures c.RetryOf? ==> HasQuarantined(old(registry), c.model, c.request)
      ensures Effect(registry, result) == CleanupEffect(old(registry), limits, c, released, unloaded)
      ensures backend.log == old(backend.log) + CleanupCalls(old(registry), limits, c, released, unloaded)
      ensures result.Err? <==> c.RetryOf? && released && old(registry).models[c.model].lifecycle == Unloading
                               && |old(registry).models[c.model].pendingSequences| > 1
    {
      hide Consistent, Lawful, Replay, Allowed, Apply, Minus, AtMost, NextCleanup, Release, ReleaseCalls, CleanupEffect, CleanupCalls;
      ghost var g, w := registry, backend.world;
      released, unloaded := true, true;
      var choice := SelectCleanup();
      c := choice;
      PollFacts(g, limits, w, c);
      CleanupOfNothing(g, limits, c, released, unloaded);
      match choice {
        case NothingToRetry =>
          result := Ok(CleanupPoll.Idle);
        case RetryOf(m, r) =>
          result, released, unloaded := RetryQuarantined(m, r);
        case RetryOfModel(m) =>
          result, released := RetryPendingModel(m);
      }
      PollRejectedExactly(g, limits, c, released, unloaded);
    }
  
    // load_model: plan, admit, load, validate; a rejected model is unloaded at once or
    // quarantined under the generation it was loaded for.
    method LoadModel(m: ModelId)
      returns (r: Outcome<LoadReceipt>, ghost planned: Result<LoadPlan, nat>, ghost loaded: Result<Model, nat>, ghost unloaded: bool)
      requires Valid()
      modifies this`registry, backend
      ensures Valid()
      ensures LoadOutcome(old(registry), limits, m, registry, r)
      ensures LoadMeets(old(registry), limits, shuttingDown, m, planned, loaded, unloaded, registry, r, old(backend.Said()), backend.Said())
      ensures LoadGate(old(registry), limits, shuttingDown, m).None? && r.Err? ==> LoaderError(r.error)
    {
      hide Consistent, Lawful, Replay, Allowed, Apply, AddModel, AddPendingModel, FitsU64, WithinBudget, Plus;
      ghost var g, w := registry, backend.world;
      planned, loaded, unloaded := Err(0), Err(0), true;
      if shuttingDown {
        return Err(ShuttingDown), planned, loaded, unloaded;
      }
      if m in registry.models || m in registry.pendingModels {
        return Err(ModelAlreadyLoaded(m)), planned, loaded, unloaded;
      }
      if |registry.models| + |registry.pendingModels| >= limits.maximumModels {
        return Err(LoadedModelLimit(|registry.models| + |registry.pendingModels| + 1, limits.maximumModels)), planned, loaded, unloaded;
      }
      var current: nat := if m in registry.generations then registry.generations[m] else 0;
      if current + 1 > U64_MAX {
        return Err(ModelGenerationExhausted(m)), planned, loaded, unloaded;
      }
      var handle := ModelHandle(m, current + 1);
      r, planned, loaded, unloaded := PlanAndLoad(m, handle, g, w);
    }

    // The half of load_model that asks the loader.
    method PlanAndLoad(m: ModelId, handle: ModelHandle, ghost g: Registry, ghost w: World)
      returns (r: Outcome<LoadReceipt>, ghost planned: Result<LoadPlan, nat>, ghost loaded: Result<Model, nat>, ghost unloaded: bool)
      requires Valid() && registry == g && backend.world == w
      requires m !in g.models && m !in g.pendingModels && |g.models| + |g.pendingModels| < limits.maximumModels
      requires handle == ModelHandle(m, NextGeneration(g, m))
      modifies this`registry, backend
      ensures Valid()
      ensures LoadOutcome(g, limits, m, registry, r)
      ensures r.Err? ==> LoaderError(r.error)
      ensures LoadExplained(g, limits, m, planned, loaded, unloaded, registry, r)
      ensures backend.replies == old(backend.replies) + LoadReplies(g, limits, handle, planned, loaded)
      ensures backend.log == old(backend.log) + LoadCalls(g, limits, handle, planned, loaded, unloaded)
    {
      hide Consistent, Lawful, Replay, Allowed, Apply, AddModel, AddPendingModel, FitsU64, WithinBudget, Plus, NextGeneration;
      planned, loaded, unloaded := Err(0), Err(0), true;
      var answer := backend.PlanLoad(handle);
      planned := answer;
      if answer.Err? {
        return Err(LoadError(answer.error)), planned, loaded, unloaded;
      }
      var plan := answer.value;
      var admitted := Admit(registry.reserved, plan.footprint, limits.budget);
      if admitted.Err? {
        return Err(admitted.error), planned, loaded, unloaded;
      }
      var received := backend.Load(handle);
      loaded := received;
      if received.Err? {
        return Err(LoadError(received.error)), planned, loaded, unloaded;
      }
      var model := received.value;
      if model.handle != handle || model.metadata != plan.descriptor.metadata {
        r, unloaded := RejectModel(m, handle, model, plan.footprint, admitted.value, g, w);
        return;
      }
      r := AdmitModel(m, handle, model, plan, admitted.value, g, w);
    }

    // The commit half of load_model.
    method AdmitModel(m: ModelId, handle: ModelHandle, model: Model, plan: LoadPlan, next: Footprint, ghost g: Registry, ghost w: World)
      returns (r: Outcome<LoadReceipt>)
      requires LimitsOk(limits) && backend.Valid() && backend.maximumAttempts == limits.maximumAttempts
      requires registry == g && Consistent(g, limits, w)
      requires RoomForModel(g, limits, m, plan.footprint) && handle == ModelHandle(m, NextGeneration(g, m))
      requires next == Plus(g.reserved, plan.footprint)
      requires model.key !in w.models && backend.world == Apply(w, Loaded(model.key))
      modifies this`registry
      ensures Valid()
      ensures r == Ok(LoadReceipt(handle, plan.descriptor, plan.footprint)) && LoadOutcome(g, limits, m, registry, r)
      ensures m in registry.models && registry.reserved == next
      ensures registry.models[m] == ModelSlot(handle, plan.descriptor, Lifecycle.State.Ready, model, plan.footprint, plan.footprint, map[], map[], false, 0)
    {
      hide Consistent, Lawful, Replay, Allowed, Apply, AddModel, AddPendingModel, FitsU64, WithinBudget, Plus, NextGeneration;
      var slot := ModelSlot(handle, plan.descriptor, Lifecycle.State.Ready, model, plan.footprint, plan.footprint, map[], map[], false, 0);
      FitsAlone(g.reserved, plan.footprint);
      AddModelKeeps(g, limits, w, m, slot);
      RecordModel(m, slot, next);
      return Ok(LoadReceipt(handle, plan.descriptor, plan.footprint));
    }

    // The rejection half of load_model.
    method RejectModel(m: ModelId, handle: ModelHandle, model: Model, footprint: Footprint, next: Footprint, ghost g: Registry, ghost w: World)
      returns (r: Outcome<LoadReceipt>, ghost unloaded: bool)
      requires LimitsOk(limits) && backend.Valid() && backend.maximumAttempts == limits.maximumAttempts
      requires registry == g && Consistent(g, limits, w)
      requires RoomForModel(g, limits, m, footprint) && handle == ModelHandle(m, NextGeneration(g, m))
      requires next == Plus(g.reserved, footprint)
      requires model.key !in w.models && backend.world == Apply(w, Loaded(model.key))
      requires forall s :: s in w.sequences ==> w.sequences[s].model in w.models
      modifies this`registry, backend`log, backend`world
      ensures Valid()
      ensures r.Err? && LoaderError(r.error) && LoadOutcome(g, limits, m, registry, r)
      ensures backend.log == old(backend.log) + [PrepareUnload(model.key, unloaded)]
      ensures unloaded ==> r == Err(BackendContractViolation) && registry == g
      ensures !unloaded ==> ModelRetained(g, limits, m, model, footprint, registry, r)
    {
      hide Consistent, Lawful, Replay, Allowed, Apply, AddModel, AddPendingModel, FitsU64, WithinBudget, Plus;
      LoadRejectedFacts(g, limits, w, model.key);
      var ok := backend.UnloadModel(model);
      unloaded := ok;
      if !ok {
        var report := CleanupReport(ModelAdmission, ContractFailure, ModelUnloading, SynchronizationFailure);
        var pending := PendingModel(model, footprint, report, 1, 0);
        AddPendingModelKeeps(g, limits, w, m, pending);
        RecordPendingModel(m, handle.generation, pending, next);
        return Err(RetentionError(RetryState(ModelResource(m), report, 1, limits.maximumAttempts))), unloaded;
      }
      RejectedModelKeeps(g, limits, w, model.key);
      return Err(BackendContractViolation), unloaded;
    }

    // Its writes to the registry.
    method RecordModel(m: ModelId, slot: ModelSlot, next: Footprint)
      requires next == Plus(registry.reserved, slot.modelFootprint)
      modifies this`registry
      ensures registry == AddModel(old(registry), m, slot) && m in registry.models && registry.models[m] == slot
      ensures registry.reserved == next
    {
      registry := registry.(models := registry.models[m := slot],
                            generations := registry.generations[m := slot.handle.generation],
                            reserved := next,
                            modelOwners := registry.modelOwners[slot.model.key := m],
                            issued := registry.issued + {slot.handle});
    }

    method RecordPendingModel(m: ModelId, generation: nat, pending: PendingModel, next: Footprint)
      requires next == Plus(registry.reserved, pending.footprint)
      modifies this`registry
      ensures registry == AddPendingModel(old(registry), m, generation, pending)
      ensures m in registry.pendingModels && registry.pendingModels[m] == pending && registry.reserved == next
    {
      registry := registry.(pendingModels := registry.pendingModels[m := pending],
                            generations := registry.generations[m := generation],
                            reserved := next,
                            modelOwners := registry.modelOwners[pending.model.key := m]);
    }
  
    // start_request_with_reservation. The plan is checked against both ledgers before
    // the backend creates anything; a created sequence that breaks the plan is destroyed
    // at once or quarantined.
    method StartRequest(call: StartCall)
      returns (result: Outcome<StartReceipt>, ghost planned: Result<SequencePlan, nat>, ghost created: Result<Sequence, nat>, ghost destroyed: bool)
      requires Valid()
      requires call.expectedLogits.None? ==> call.workspace == Zero()
      requires call.expectedLogits.Some? ==> call.request !in registry.workspaces
      modifies this`registry, backend
      ensures Valid()
      ensures StartOutcome(old(registry), limits, call, registry, result)
      ensures StartMeets(old(registry), limits, shuttingDown, call, planned, created, destroyed, registry, result, old(backend.Said()), backend.Said())
      ensures StartGate(old(registry), limits, shuttingDown, call).None? && result.Err? ==> LoaderError(result.error)
    {
      hide Consistent, Lawful, Replay, Allowed, Apply, AddRequest, AddRejected, FitsU64, WithinBudget, Plus, Admitted, RejectedAndKept;
      ghost var g, w := registry, backend.world;
      planned, created, destroyed := Err(0), Err(0), true;
      var handle, r, sid := call.handle, call.request, call.sequence;
      if shuttingDown {
        return Err(ShuttingDown), planned, created, destroyed;
      }
      if r in registry.requestIndex || r in registry.pendingRequestIndex {
        return Err(RequestAlreadyActive(r)), planned, created, destroyed;
      }
      if sid in registry.sequenceIndex || sid in registry.pendingSequenceIndex {
        return Err(SequenceAlreadyActive(sid)), planned, created, destroyed;
      }
      var occupied := registry.activeRequests + registry.pendingCleanupSequences;
      if occupied >= limits.maximumRequests {
        return Err(CapacityExhausted(Capacity(ActiveRequests, occupied + 1, limits.maximumRequests))), planned, created, destroyed;
      }
      if call.expectedLogits.Some? {
        if registry.generationWorkspaces + 1 > U32_MAX {
          return Err(BackendContractViolation), planned, created, destroyed;
        }
        var workspace := Add(registry.reservedWorkspace, call.workspace);
        if workspace.Err? {
          return Err(workspace.error), planned, created, destroyed;
        }
      }
      if handle.id !in registry.models {
        return Err(ModelNotLoaded(handle.id)), planned, created, destroyed;
      }
      var slot := registry.models[handle.id];
      if slot.handle != handle {
        return Err(StaleModelHandle(handle, slot.handle)), planned, created, destroyed;
      }
      if slot.poisoned {
        return Err(ModelDegraded(handle.id)), planned, created, destroyed;
      }
      if !slot.lifecycle.Accepting() {
        return Err(LifecycleFailed(InvalidTransition)), planned, created, destroyed;
      }
      NotInSlot(g, limits, w, handle.id, r);
      if r in slot.requests {
        return Err(RequestAlreadyActive(r)), planned, created, destroyed;
      }
      var held := |slot.requests| + |slot.pendingSequences|;
      if held >= slot.descriptor.maximumSequences {
        return Err(CapacityExhausted(Capacity(ActiveSequences, held + 1, slot.descriptor.maximumSequences))), planned, created, destroyed;
      }
      result, planned, created, destroyed := PlanAndCreate(call, slot, g, w);
    }

    // preflight_generation_resources: the same checks, one plan, and no effect.
    method Preflight(call: StartCall) returns (r: Outcome<()>, ghost planned: Result<SequencePlan, nat>)
      requires Valid() && call.expectedLogits.Some?
      modifies backend`replies
      ensures Valid()
      ensures PreflightMeets(registry, limits, shuttingDown, call, planned, r, old(backend.Said()), backend.Said())
    {
      hide Consistent, Lawful, Replay, Allowed, Apply, FitsU64, WithinBudget, Plus;
      planned := Err(0);
      var handle := call.handle;
      if shuttingDown {
        return Err(ShuttingDown), planned;
      }
      if call.request in registry.requestIndex || call.request in registry.pendingRequestIndex {
        return Err(RequestAlreadyActive(call.request)), planned;
      }
      if call.sequence in registry.sequenceIndex || call.sequence in registry.pendingSequenceIndex {
        return Err(SequenceAlreadyActive(call.sequence)), planned;
      }
      var occupied := registry.activeRequests + registry.pendingCleanupSequences;
      if occupied >= limits.maximumRequests {
        return Err(CapacityExhausted(Capacity(ActiveRequests, occupied + 1, limits.maximumRequests))), planned;
      }
      if handle.id !in registry.models {
        return Err(ModelNotLoaded(handle.id)), planned;
      }
      var slot := registry.models[handle.id];
      if slot.handle != handle {
        return Err(StaleModelHandle(handle, slot.handle)), planned;
      }
      if slot.poisoned {
        return Err(ModelDegraded(handle.id)), planned;
      }
      if !slot.lifecycle.Accepting() {
        return Err(LifecycleFailed(InvalidTransition)), planned;
      }
      var held := |slot.requests| + |slot.pendingSequences|;
      if held >= slot.descriptor.maximumSequences {
        return Err(CapacityExhausted(Capacity(ActiveSequences, held + 1, slot.descriptor.maximumSequences))), planned;
      }
      var answer := backend.PlanSequence(slot.model, call.configuration);
      planned := answer;
      r := CheckPlan(call, answer);
    }

    // What the preflight makes of the plan.
    method CheckPlan(call: StartCall, answer: Result<SequencePlan, nat>) returns (r: Outcome<()>)
      requires call.expectedLogits.Some?
      ensures PreflightExplained(registry, limits, call, answer, r)
    {
      hide FitsU64, WithinBudget, Plus;
      if answer.Err? {
        return Err(ModelError(answer.error));
      }
      var plan := answer.value;
      if plan.configuration != call.configuration || plan.logitsCapacity != call.expectedLogits.value {
        return Err(BackendContractViolation);
      }
      var committed := Add(plan.footprint, call.workspace);
      if committed.Err? {
        return Err(committed.error);
      }
      var admitted := Admit(registry.reserved, committed.value, limits.budget);
      if admitted.Err? {
        return Err(admitted.error);
      }
      return Ok(());
    }

    // The half of start_request_with_reservation that asks the model.
    method PlanAndCreate(call: StartCall, slot: ModelSlot, ghost g: Registry, ghost w: World)
      returns (result: Outcome<StartReceipt>, ghost planned: Result<SequencePlan, nat>, ghost created: Result<Sequence, nat>, ghost destroyed: bool)
      requires Valid() && registry == g && backend.world == w
      requires call.handle.id in g.models && slot == g.models[call.handle.id] && slot.handle == call.handle && !slot.poisoned
      requires RoomForRequest(g, limits, call.handle.id, call.request, call.sequence)
      requires call.expectedLogits.None? ==> call.workspace == Zero()
      requires call.expectedLogits.Some? ==> call.request !in g.workspaces
      modifies this`registry, backend
      ensures Valid()
      ensures StartOutcome(g, limits, call, registry, result)
      ensures result.Err? ==> LoaderError(result.error)
      ensures StartExplained(g, limits, call, planned, created, destroyed, registry, result)
      ensures backend.replies == old(backend.replies) + StartReplies(g, limits, call, slot.model.key, planned, created)
      ensures backend.log == old(backend.log) + StartCalls(g, limits, call, slot.model.key, planned, created, destroyed)
    {
      hide Consistent, Lawful, Replay, Allowed, Apply, AddRequest, AddRejected, FitsU64, WithinBudget, Plus, Admitted, RejectedAndKept, RoomForRequest;
      planned, created, destroyed := Err(0), Err(0), true;
      var answer := backend.PlanSequence(slot.model, call.configuration);
      planned := answer;
      if answer.Err? {
        return Err(ModelError(answer.error)), planned, created, destroyed;
      }
      var plan := answer.value;
      if plan.configuration != call.configuration
        || (call.expectedLogits.Some? && plan.logitsCapacity != call.expectedLogits.value) {
        return Err(BackendContractViolation), planned, created, destroyed;
      }
      PartsFit(plan.footprint, call.workspace, registry.reserved, slot.reserved, limits.budget);
      var committed := Add(plan.footprint, call.workspace);
      if committed.Err? {
        return Err(committed.error), planned, created, destroyed;
      }
      var backendReserved := Admit(registry.reserved, plan.footprint, limits.budget);
      if backendReserved.Err? {
        return Err(backendReserved.error), planned, created, destroyed;
      }
      var committedReserved := Admit(registry.reserved, committed.value, limits.budget);
      if committedReserved.Err? {
        return Err(committedReserved.error), planned, created, destroyed;
      }
      var backendSlot := Add(slot.reserved, plan.footprint);
      if backendSlot.Err? {
        return Err(backendSlot.error), planned, created, destroyed;
      }
      var committedSlot := Add(slot.reserved, committed.value);
      if committedSlot.Err? {
        return Err(committedSlot.error), planned, created, destroyed;
      }
      ResidentFacts(g, limits, w, call.handle.id);
      var received := backend.CreateSequence(slot.model, call.sequence, call.configuration);
      created := received;
      if received.Err? {
        return Err(ModelError(received.error)), planned, created, destroyed;
      }
      var sequence := received.value;
      if sequence.id != call.sequence || sequence.tokenCapacity != call.configuration.maximumTokens {
        result, destroyed := RejectSequence(call, slot, sequence, plan.footprint, backendReserved.value, backendSlot.value, g, w);
        return;
      }
      result := CommitRequest(call, slot, sequence, plan, committed.value, committedReserved.value, committedSlot.value, g, w);
    }

    // The rejection half of start_request_with_reservation.
    method RejectSequence(call: StartCall, slot: ModelSlot, sequence: Sequence, footprint: Footprint,
                          next: Footprint, nextSlot: Footprint, ghost g: Registry, ghost w: World)
      returns (result: Outcome<StartReceipt>, ghost destroyed: bool)
      requires LimitsOk(limits) && backend.Valid() && backend.maximumAttempts == limits.maximumAttempts
      requires registry == g && Consistent(g, limits, w)
      requires call.handle.id in g.models && slot == g.models[call.handle.id] && slot.handle == call.handle
      requires RoomForRequest(g, limits, call.handle.id, call.request, call.sequence)
      requires Affordable(g, limits, call.handle.id, footprint)
      requires next == Plus(g.reserved, footprint) && nextSlot == Plus(slot.reserved, footprint)
      requires sequence.key !in w.sequences && backend.world == Apply(w, Created(sequence.key, slot.model.key))
      modifies this`registry, backend`log, backend`world
      ensures Valid()
      ensures result.Err? && LoaderError(result.error)
      ensures StartOutcome(g, limits, call, registry, result)
      ensures backend.log == old(backend.log) + [Destroy(sequence.key, destroyed)]
      ensures destroyed ==> result == Err(BackendContractViolation) && registry == g
      ensures !destroyed ==> SequenceRetained(g, limits, call, sequence, footprint, registry, result)
    {
      hide Consistent, Lawful, Replay, Affordable, FitsU64, WithinBudget, Plus, Admitted, RoomForRequest;
      var r, m := call.request, call.handle.id;
      var ok := backend.DestroySequence(sequence);
      destroyed := ok;
      if !ok {
        var report := CleanupReport(SequenceAdmission, ContractFailure, SequenceDestruction, SequenceFailure);
        var pending := PendingSequence(r, call.sequence, sequence, footprint, report, 1);
        registry := registry.(models := registry.models[m := slot.(pendingSequences := slot.pendingSequences[r := pending],
                                                                   reserved := nextSlot,
                                                                   poisoned := true)],
                              pendingRequestIndex := registry.pendingRequestIndex[r := m],
                              pendingSequenceIndex := registry.pendingSequenceIndex[call.sequence := r],
                              pendingCleanupSequences := registry.pendingCleanupSequences + 1,
                              reserved := next,
                              sequenceOwners := registry.sequenceOwners[sequence.key := Owner(m, r)]);
        AddRejectedKeeps(g, limits, w, m, r, pending);
        return Err(RetentionError(RetryState(SequenceResource(m, r, call.sequence), report, 1, limits.maximumAttempts))), destroyed;
      }
      RejectedSequenceKeeps(g, limits, w, sequence.key, slot.model.key);
      return Err(BackendContractViolation), destroyed;
    }

    // The commit half of start_request_with_reservation.
    method CommitRequest(call: StartCall, slot: ModelSlot, sequence: Sequence, plan: SequencePlan, committed: Footprint,
                         next: Footprint, nextSlot: Footprint, ghost g: Registry, ghost w: World)
      returns (result: Outcome<StartReceipt>)
      requires LimitsOk(limits) && backend.Valid() && backend.maximumAttempts == limits.maximumAttempts
      requires registry == g && Consistent(g, limits, w)
      requires call.handle.id in g.models && slot == g.models[call.handle.id] && slot.handle == call.handle && !slot.poisoned
      requires RoomForRequest(g, limits, call.handle.id, call.request, call.sequence)
      requires committed == Plus(plan.footprint, call.workspace) && Affordable(g, limits, call.handle.id, committed)
      requires next == Plus(g.reserved, committed) && nextSlot == Plus(slot.reserved, committed)
      requires call.expectedLogits.Some? ==> plan.logitsCapacity == call.expectedLogits.value
      requires call.expectedLogits.None? ==> call.workspace == Zero()
      requires call.expectedLogits.Some? ==> call.request !in g.workspaces
      requires sequence.id == call.sequence && sequence.tokenCapacity == call.configuration.maximumTokens && sequence.calls == []
      requires sequence.key !in w.sequences && backend.world == Apply(w, Created(sequence.key, slot.model.key))
      modifies this`registry
      ensures Valid()
      ensures StartOutcome(g, limits, call, registry, result)
      ensures result == Ok(StartReceipt(call.request, call.sequence, plan.logitsCapacity, committed))
      ensures call.handle.id in registry.models && call.request in registry.models[call.handle.id].requests
      ensures registry.models[call.handle.id].requests[call.request] == RequestSlot(sequence, plan.footprint, call.workspace, Usage(0, 0))
      ensures registry.models[call.handle.id].reserved == nextSlot && registry.reserved == next
    {
      hide Consistent, Lawful, Replay, Affordable, FitsU64, WithinBudget, RejectedAndKept, AfterStart, RoomForRequest;
      var r, m := call.request, call.handle.id;
      var tracked := call.expectedLogits.Some?;
      var request := RequestSlot(sequence, plan.footprint, call.workspace, Usage(0, 0));
      AddRequestKeeps(g, limits, w, m, r, request, tracked);
      var started := AfterStart(slot.lifecycle);
      if started.result.Err? {
        return Err(LifecycleFailed(InvalidTransition));
      }
      registry := registry.(models := registry.models[m := slot.(requests := slot.requests[r := request],
                                                                 reserved := nextSlot,
                                                                 lifecycle := started.next)],
                            requestIndex := registry.requestIndex[r := m],
                            sequenceIndex := registry.sequenceIndex[call.sequence := r],
                            activeRequests := registry.activeRequests + 1,
                            reserved := next,
                            generationWorkspaces := registry.generationWorkspaces + if tracked then 1 else 0,
                            reservedWorkspace := if tracked then Plus(registry.reservedWorkspace, call.workspace) else registry.reservedWorkspace,
                            workspaces := if tracked then registry.workspaces[r := call.workspace] else registry.workspaces,
                            sequenceOwners := registry.sequenceOwners[sequence.key := Owner(m, r)]);
      return Ok(StartReceipt(r, call.sequence, plan.logitsCapacity, committed));
    }
  
    // prefill: one checked backend call, then usage, or removal when it ended or failed.
    method PrefillRequest(r: RequestId, tokens: seq<Token>, emitLogits: bool, buffer: seq<real>)
      returns (result: Outcome<Answer>, after: seq<real>, ghost destroyed: bool, ghost unloaded: bool)
      requires Valid()
      modifies this`registry, backend`log, backend`world
      ensures Valid()
      ensures r !in old(registry).requestIndex ==>
        result == Err(RequestNotActive(r)) && after == buffer && registry == old(registry) && backend.log == old(backend.log)
      ensures r in old(registry).requestIndex ==>
        && HasRequest(old(registry), r)
        && var request := RequestOf(old(registry), r);
           var checked := PrefillChecked(backend.kernel, request.sequence, tokens, emitLogits, buffer);
           && after == checked.buffer
           && Effect(registry, result)
              == Execute(old(registry), limits, r, checked, PromptUsage(request.usage, checked.answer), Prefill, destroyed, unloaded)
           && backend.log == old(backend.log)
              + ExecuteCalls(old(registry), r, checked, PromptUsage(request.usage, checked.answer), destroyed, unloaded)
    {
      hide Consistent, Lawful, Replay, Allowed, Apply, Remove, RemoveCalls, PrefillChecked, Execute, ConcludeCalls;
      ghost var g, w := registry, backend.world;
      destroyed, unloaded := true, true;
      if r !in registry.requestIndex {
        return Err(RequestNotActive(r)), buffer, destroyed, unloaded;
      }
      RemoveFacts(g, limits, w, r);
      ExecuteAllowed(g, limits, w, r);
      var request := registry.models[registry.requestIndex[r]].requests[r];
      var checked := backend.Prefill(request.sequence, tokens, emitLogits, buffer);
      CheckedKeepsIdentity(backend.kernel, request.sequence, tokens, emitLogits, 0, buffer);
      UseSequenceKeeps(g, limits, w, r, checked.sequence, PromptUsage(request.usage, checked.answer));
      result, destroyed, unloaded := Conclude(r, checked, PromptUsage(request.usage, checked.answer), Prefill);
      return result, checked.buffer, destroyed, unloaded;
    }

    // decode.
    method DecodeRequest(r: RequestId, token: Token, buffer: seq<real>)
      returns (result: Outcome<Answer>, after: seq<real>, ghost destroyed: bool, ghost unloaded: bool)
      requires Valid()
      modifies this`registry, backend`log, backend`world
      ensures Valid()
      ensures r !in old(registry).requestIndex ==>
        result == Err(RequestNotActive(r)) && after == buffer && registry == old(registry) && backend.log == old(backend.log)
      ensures r in old(registry).requestIndex ==>
        && HasRequest(old(registry), r)
        && var request := RequestOf(old(registry), r);
           var checked := DecodeChecked(backend.kernel, request.sequence, token, buffer);
           && after == checked.buffer
           && Effect(registry, result)
              == Execute(old(registry), limits, r, checked, DecodeUsage(request.usage, checked.answer), Decode, destroyed, unloaded)
           && backend.log == old(backend.log)
              + ExecuteCalls(old(registry), r, checked, DecodeUsage(request.usage, checked.answer), destroyed, unloaded)
    {
      hide Consistent, Lawful, Replay, Allowed, Apply, Remove, RemoveCalls, DecodeChecked, Execute, ConcludeCalls;
      ghost var g, w := registry, backend.world;
      destroyed, unloaded := true, true;
      if r !in registry.requestIndex {
        return Err(RequestNotActive(r)), buffer, destroyed, unloaded;
      }
      RemoveFacts(g, limits, w, r);
      ExecuteAllowed(g, limits, w, r);
      var request := registry.models[registry.requestIndex[r]].requests[r];
      var checked := backend.Decode(request.sequence, token, buffer);
      CheckedKeepsIdentity(backend.kernel, request.sequence, [], false, token, buffer);
      UseSequenceKeeps(g, limits, w, r, checked.sequence, DecodeUsage(request.usage, checked.answer));
      result, destroyed, unloaded := Conclude(r, checked, DecodeUsage(request.usage, checked.answer), Decode);
      return result, checked.buffer, destroyed, unloaded;
    }

    // What prefill and decode do with the backend's answer.
    method Conclude(r: RequestId, checked: Checked, usage: Usage, operation: RuntimeOperation)
      returns (result: Outcome<Answer>, ghost destroyed: bool, ghost unloaded: bool)
      requires LimitsOk(limits) && backend.Valid() && backend.maximumAttempts == limits.maximumAttempts
      requires HasRequest(registry, r)
      requires Consistent(UseSequence(registry, r, checked.sequence, usage), limits, backend.world)
      modifies this`registry, backend`log, backend`world
      ensures Valid()
      ensures Effect(registry, result) == Execute(old(registry), limits, r, checked, usage, operation, destroyed, unloaded)
      ensures backend.log == old(backend.log)
              + ConcludeCalls(UseSequence(old(registry), r, checked.sequence, usage), r, checked, destroyed, unloaded)
    {
      hide Consistent, Lawful, Replay, Remove, RemoveCalls;
      destroyed, unloaded := true, true;
      var m := registry.requestIndex[r];
      var slot := registry.models[m];
      var request := slot.requests[r].(sequence := checked.sequence, usage := usage);
      registry := registry.(models := registry.models[m := slot.(requests := slot.requests[r := request])]);
      var removed;
      match checked.answer {
        case Ok(Ready(_, _, _)) =>
          result := Ok(checked.answer.value);
        case Ok(Ended(reason)) =>
          removed, destroyed, unloaded := RemoveRequest(r, FinishOperation(reason), FinishFailureClass(reason));
          if removed.Err? && !removed.error.RetainsResource() {
            return Err(removed.error), destroyed, unloaded;
          }
          result := Ok(Ended(reason));
        case Err(error) =>
          removed, destroyed, unloaded := RemoveRequest(r, operation, SequenceFailure);
          if removed.Err? && !removed.error.RetainsResource() {
            return Err(removed.error), destroyed, unloaded;
          }
          result := Err(SequenceFailed(error));
      }
    }

    // Releases one generation task's host workspace after its last publication.
    method ReleaseGenerationWorkspace(footprint: Footprint, ghost r: RequestId) returns (result: Outcome<()>)
      requires Valid()
      requires r in registry.workspaces && registry.workspaces[r] == footprint
      modifies this`registry
      ensures Valid()
      ensures result == Ok(())
      ensures registry.workspaces == old(registry).workspaces - {r}
      ensures old(registry).generationWorkspaces > 0 && registry == ReleaseWorkspace(old(registry), r)
    {
      hide Consistent, Lawful, Replay, Minus, AtMost;
      ReleaseWorkspaceKeeps(registry, limits, backend.world, r);
      var workspace := Subtract(registry.reservedWorkspace, footprint);
      if workspace.Err? {
        return Err(MemoryUnderflow);
      }
      var total := Subtract(registry.reserved, footprint);
      if total.Err? {
        return Err(MemoryUnderflow);
      }
      registry := registry.(generationWorkspaces := registry.generationWorkspaces - 1,
                            reservedWorkspace := workspace.value,
                            reserved := total.value,
                            workspaces := registry.workspaces - {r});
      return Ok(());
    }
  
    // absent_unload_receipt.
    method AbsentUnload(handle: ModelHandle) returns (r: Outcome<UnloadReceipt>)
      requires Valid() && handle.id !in registry.models
      ensures r == AbsentAnswer(registry, limits, handle)
      ensures r.Ok? <==> (handle.id in registry.generations && registry.generations[handle.id] == handle.generation
                          && handle.id !in registry.pendingModels)
      ensures handle in registry.issued && r.Err? && r.error.StaleModelHandle? ==>
                r.error.current.generation > handle.generation
    {
      hide Lawful, Replay, SlotsConsistent, IndicesConsistent, LedgerConsistent, OwnershipConsistent;
      if handle.id in registry.pendingModels {
        var pending := registry.pendingModels[handle.id];
        var retained := RetryState(ModelResource(handle.id), pending.failure, pending.attempts, limits.maximumAttempts);
        var quarantined := ModelHandle(handle.id, registry.generations[handle.id]);
        if quarantined != handle {
          return Err(StaleModelHandle(handle, quarantined));
        }
        return Err(RetentionError(retained));
      }
      if handle.id !in registry.generations {
        return Err(ModelNotLoaded(handle.id));
      }
      var current := ModelHandle(handle.id, registry.generations[handle.id]);
      if current != handle {
        return Err(StaleModelHandle(handle, current));
      }
      return Ok(UnloadReceipt(handle, AlreadyAbsent, 0));
    }

    // The common tail of every forced unload: drain by cancellation, then release.
    method CancelAndRelease(handle: ModelHandle, ghost g: Registry) returns (r: Outcome<UnloadReceipt>)
      requires Valid()
      requires handle.id in registry.models && handle.id in g.models && g.models[handle.id].handle == handle
      requires Quiet(g, registry) && OthersKept(g, registry, handle.id)
      modifies this`registry, backend`log, backend`world
      ensures Valid()
      ensures UnloadOutcome(g, handle.id, registry, r)
      ensures r.Ok? ==> r.value == UnloadReceipt(handle, UnloadDone, CancelledBy(old(registry).models[handle.id]))
      ensures old(backend.log) <= backend.log
      ensures CleanModel(old(registry), handle.id) && !old(registry).models[handle.id].lifecycle.Accepting() ==>
        Flawless(old(backend.log), backend.log) ==> r.Ok?
    {
      hide Consistent, Lawful, Replay, Quiet, OthersKept, Release, ReleaseCalls, Flawless;
      ghost var start, log := registry, backend.log;
      DisjointIn(start, limits, backend.world, handle.id);
      var cancelled;
      ghost var steps;
      cancelled, steps := CancelAllRequests(handle.id);
      ghost var drained := registry;
      QuietTransitive(g, start, drained);
      OthersKeptTransitive(g, start, drained, handle.id);
      if cancelled.Err? {
        return Err(cancelled.error);
      }
      if handle.id in registry.models {
        var released;
        ghost var unloaded;
        ghost var called := backend.log;
        if !start.models[handle.id].lifecycle.Accepting() {
          EmptyIsUnloading(drained, limits, backend.world, handle.id);
        }
        released, unloaded := ReleaseModelWithPrimary(handle.id, Cancellation, CancellationClass);
        ReleaseFlawless(drained, limits, handle.id, Cancellation, CancellationClass, unloaded, called);
        FlawlessParts(log, called, backend.log);
        ReleaseIsQuiet(drained, limits, handle.id, Cancellation, CancellationClass, unloaded);
        ReleaseOnModel(drained, limits, handle.id, Cancellation, CancellationClass, unloaded);
        QuietTransitive(g, drained, registry);
        OthersKeptTransitive(g, drained, registry, handle.id);
        if released.Err? {
          return Err(released.error);
        }
      }
      return Ok(UnloadReceipt(handle, UnloadDone, cancelled.value));
    }

    // release_model: an unload without requests to cancel.
    method ReleaseIdle(handle: ModelHandle, ghost g: Registry) returns (r: Outcome<UnloadReceipt>)
      requires Valid()
      requires handle.id in registry.models && handle.id in g.models && g.models[handle.id].handle == handle
      requires Quiet(g, registry) && OthersKept(g, registry, handle.id)
      modifies this`registry, backend`log, backend`world
      ensures Valid()
      ensures UnloadOutcome(g, handle.id, registry, r)
      ensures r.Ok? ==> r.value == UnloadReceipt(handle, UnloadDone, 0)
      ensures old(backend.log) <= backend.log
      ensures CleanModel(old(registry), handle.id) && old(registry).models[handle.id].lifecycle.Unloading? ==>
        Flawless(old(backend.log), backend.log) ==> r.Ok?
    {
      hide Consistent, Lawful, Replay, Quiet, OthersKept, Release, ReleaseCalls, Flawless;
      ghost var start, log := registry, backend.log;
      DisjointIn(start, limits, backend.world, handle.id);
      UnloadingIsEmpty(start, limits, backend.world, handle.id);
      var released;
      ghost var unloaded;
      released, unloaded := ReleaseModelWithPrimary(handle.id, ModelUnloading, CompletionClass);
      ReleaseIsQuiet(start, limits, handle.id, ModelUnloading, CompletionClass, unloaded);
      ReleaseOnModel(start, limits, handle.id, ModelUnloading, CompletionClass, unloaded);
      ReleaseFlawless(start, limits, handle.id, ModelUnloading, CompletionClass, unloaded, log);
      QuietTransitive(g, start, registry);
      OthersKeptTransitive(g, start, registry, handle.id);
      if released.Err? {
        return Err(released.error);
      }
      return Ok(UnloadReceipt(handle, UnloadDone, 0));
    }

    // Moves one slot's lifecycle along a step that keeps its active count.
    method SetLifecycle(m: ModelId, lifecycle: State)
      requires Valid() && m in registry.models
      requires lifecycle.WellFormed() && lifecycle.ActiveCount() == registry.models[m].lifecycle.ActiveCount()
      requires lifecycle.Draining? || lifecycle.Cancelling? || lifecycle.Unloading?
      modifies this`registry
      ensures Valid()
      ensures registry == old(registry).(models := old(registry).models[m := old(registry).models[m].(lifecycle := lifecycle)])
      ensures Quiet(old(registry), registry) && OthersKept(old(registry), registry, m)
    {
      hide Consistent, Lawful, Replay, Quiet, OthersKept;
      var slot := registry.models[m];
      RelabelKeeps(registry, limits, backend.world, m, lifecycle, slot.cancelledDuringUnload);
      LifecycleIsQuiet(registry, m, lifecycle);
      registry := registry.(models := registry.models[m := slot.(lifecycle := lifecycle)]);
    }

    // unload_model. A handle of another generation is refused before anything moves.
    method UnloadModel(handle: ModelHandle, policy: UnloadPolicy, now: nat) returns (r: Outcome<UnloadReceipt>)
      requires Valid()
      modifies this`registry, backend`log, backend`world
      ensures Valid()
      ensures UnloadOutcome(old(registry), handle.id, registry, r)
      ensures UnloadMeets(old(registry), limits, handle, policy, now, registry, r)
      ensures UnloadGranted(old(registry), handle, policy, r, old(backend.log), backend.log)
    {
      hide Consistent, Lawful, Replay, Quiet, OthersKept, Flawless, UnloadOutcome, AfterUnloadRequest, CleanModel, AbsentAnswer, UnloadMeets, UnloadRefused, CancelledBy;
      ghost var g := registry;
      UnloadUnmoved(g, limits, handle, policy, now);
      if handle.id !in registry.models {
        r := AbsentUnload(handle);
        return;
      }
      RelabelWithin(g, limits, backend.world, handle.id);
      UnloadSteps(g.models[handle.id].lifecycle, policy, now);
      var slot := registry.models[handle.id];
      if slot.handle != handle {
        return Err(StaleModelHandle(handle, slot.handle));
      }
      var step := AfterUnloadRequest(slot.lifecycle, policy, now);
      if step.result.Err? {
        UnloadRefusal(g, limits, handle, policy, now);
        return Err(LifecycleFailed(step.result.error));
      }
      SetLifecycle(handle.id, step.next);
      r := ActOnUnload(handle, step.result.value, g, step.next);
      UnloadAnswers(g, limits, handle, policy, now, registry, r);
    }

    // The action an accepted unload calls for, with the lifecycle already moved.
    method ActOnUnload(handle: ModelHandle, action: Action, ghost g: Registry, ghost moved: State) returns (r: Outcome<UnloadReceipt>)
      requires Valid()
      requires UnloadMoved(g, handle, action, moved, registry)
      requires Quiet(g, registry) && OthersKept(g, registry, handle.id)
      modifies this`registry, backend`log, backend`world
      ensures Valid()
      ensures UnloadOutcome(g, handle.id, registry, r)
      ensures action.NoAction? ==> registry == old(registry)
      ensures UnloadActed(g, handle, action, r, old(backend.log), backend.log)
    {
      hide Consistent, Lawful, Replay, Quiet, OthersKept, Flawless, UnloadOutcome, CleanModel, CancelledBy, InferenceRuntime.Valid;
      CleanAlike(g, registry, handle.id);
      CancelledAlike(g.models[handle.id], moved);
      match action {
        case NoAction =>
          UnloadDrains(g, handle, moved);
          r := Ok(UnloadReceipt(handle, StillDraining, 0));
        case CancelActiveRequests(_) =>
          r := CancelAndRelease(handle, g);
        case ReleaseModel =>
          r := ReleaseIdle(handle, g);
      }
    }

    // poll_unload_transition: at most one model moves; an expired drain always becomes a
    // cancellation, so no model can stay draining past its window.
    method PollUnloadTransition(now: nat) returns (r: Option<(ModelHandle, Outcome<UnloadReceipt>)>)
      requires Valid()
      modifies this`registry, backend`log, backend`world
      ensures Valid()
      ensures r.None? <==> NothingDue(old(registry), now)
      ensures r.None? ==> registry == old(registry)
      ensures r.Some? ==>
        && var m := r.value.0.id;
           && DueTransition(old(registry), now, m)
           && UnloadOutcome(old(registry), m, registry, r.value.1)
           && (r.value.1.Ok? ==>
                 && r.value.1.value.status == UnloadDone
                 && r.value.1.value.cancelled == if old(registry).models[m].lifecycle.Unloading? then 0 else CancelledBy(old(registry).models[m]))
           && (Flawless(old(backend.log), backend.log) && CleanModel(old(registry), m) ==> r.value.1.Ok?)
    {
      hide Consistent, Lawful, Replay, Quiet, OthersKept, UnloadOutcome, Flawless, DrainDue, CancelDue, ReleaseDue, NothingDue;
      ghost var g := registry;
      DueSets(g, now);
      var expired := Expired(registry, now);
      if expired != {} {
        var m := First(expired);
        var lifecycle := registry.models[m].lifecycle;
        RelabelWithin(g, limits, backend.world, m);
        KnownHandle(g, limits, backend.world, m);
        var handle := registry.models[m].handle;
        SetLifecycle(m, AfterPoll(lifecycle, now).next);
        var outcome := CancelAndRelease(handle, g);
        return Some((handle, outcome));
      }
      var cancelling := BeingCancelled(registry);
      if cancelling != {} {
        var m := First(cancelling);
        var handle := registry.models[m].handle;
        KnownHandle(g, limits, backend.world, m);
        QuietReflexive(g, m);
        var outcome := CancelAndRelease(handle, g);
        return Some((handle, outcome));
      }
      var unloading := AwaitingRelease(registry);
      if unloading != {} {
        var m := First(unloading);
        var handle := registry.models[m].handle;
        KnownHandle(g, limits, backend.world, m);
        QuietReflexive(g, m);
        var outcome := ReleaseIdle(handle, g);
        return Some((handle, outcome));
      }
      return None;
    }

    // First half of shutdown: every model is asked to unload, its requests cancelled,
    // and released unless quarantined sequences still hold it.
    method DrainModels() returns (r: Outcome<nat>, ghost moves: seq<ShutdownSpec.Move>, ghost left: set<ModelId>)
      requires Valid()
      modifies this`registry, backend`log, backend`world
      ensures Valid()
      ensures Quiet(old(registry), registry)
      ensures r.Ok? ==> Drained(registry)
      ensures r.Err? ==> r.error == LifecycleFailed(InvalidTransition)
      ensures r.Ok? ==> r.value + |registry.requestIndex| == |old(registry).requestIndex|
      ensures r.Ok? ==> left == {}
      ensures ShutdownSpec.Leads(limits, old(registry), old(registry).models.Keys, moves, registry, left, ShutdownSpec.Judge(r))
      ensures old(backend.log) <= backend.log
      ensures NothingQuarantined(old(registry)) && Flawless(old(backend.log), backend.log) ==> r.Ok? && NothingQuarantined(registry)
    {
      hide Consistent, Lawful, Replay, Quiet, OthersKept, OnlyQuarantineLeft, Flawless, NothingQuarantined, ShutdownSpec.Leads;
      ghost var g, log := registry, backend.log;
      QuietReflexive(g, 0);
      FlawlessSelf(log);
      var todo := registry.models.Keys;
      var cancelled: nat := 0;
      moves, left := [], todo;
      ActiveBounded(g, limits, backend.world);
      ShutdownSpec.LeadsNowhere(limits, g, todo);
      while todo != {}
        invariant Valid()
        invariant Quiet(g, registry)
        invariant forall m :: m in registry.models ==> m in todo || OnlyQuarantineLeft(registry.models[m])
        invariant log <= backend.log && (NothingQuarantined(g) && Flawless(log, backend.log) ==> NothingQuarantined(registry))
        invariant cancelled + |registry.requestIndex| == |g.requestIndex|
        invariant ShutdownSpec.Leads(limits, g, g.models.Keys, moves, registry, todo, ShutdownSpec.Going)
        decreases |todo|
      {
        var m := First(todo);
        ghost var before, called := registry, backend.log;
        var drained;
        ghost var more;
        drained, more := DrainModel(m, todo);
        left := if drained.Ok? then todo - {m} else todo;
        ShutdownSpec.LeadsThen(limits, g, g.models.Keys, moves, before, todo, more, registry, left, ShutdownSpec.Judge(drained));
        moves := moves + more;
        QuietTransitive(g, before, registry);
        FlawlessParts(log, called, backend.log);
        CleanEverywhere(before, registry, m);
        if drained.Err? {
          return Err(drained.error), moves, left;
        }
        OthersStayDrained(before, registry, m, todo);
        todo := todo - {m};
        cancelled := Min(U32_MAX, cancelled + drained.value);
      }
      return Ok(cancelled), moves, {};
    }

    method DrainModel(m: ModelId, ghost todo: set<ModelId>) returns (r: Outcome<nat>, ghost moves: seq<ShutdownSpec.Move>)
      requires Valid()
      modifies this`registry, backend`log, backend`world
      ensures Valid()
      ensures Quiet(old(registry), registry) && OthersKept(old(registry), registry, m)
      ensures r.Ok? && m in registry.models ==> OnlyQuarantineLeft(registry.models[m])
      ensures r.Err? ==> r.error == LifecycleFailed(InvalidTransition)
      ensures r.Ok? ==> r.value + |registry.requestIndex| == |old(registry).requestIndex|
      ensures IsLeast(m, todo) ==>
        ShutdownSpec.Leads(limits, old(registry), todo, moves, registry, if r.Ok? then todo - {m} else todo, ShutdownSpec.Judge(r))
      ensures old(backend.log) <= backend.log
      ensures Flawless(old(backend.log), backend.log) && CleanModel(old(registry), m) ==> r.Ok? && CleanModel(registry, m)
    {
      hide Consistent, Lawful, Replay, Quiet, OthersKept, Lawful, OnlyQuarantineLeft, Flawless, ShutdownSpec.Leads, IsLeast;
      ghost var g, log := registry, backend.log;
      if m !in registry.models {
        QuietReflexive(g, m);
        if IsLeast(m, todo) {
          ShutdownSpec.LeaveLeads(limits, g, todo, m);
        }
        return Ok(0), [ShutdownSpec.NextModel(m)];
      }
      moves := AskUnload(m, todo);
      ghost var asked := registry;
      ghost var more;
      r, more := CancelAllForShutdown(m, todo);
      ghost var emptied, called := registry, backend.log;
      if IsLeast(m, todo) {
        ShutdownSpec.LeadsThen(limits, g, todo, moves, asked, todo, more, emptied, todo, ShutdownSpec.Judge(r));
      }
      moves := moves + more;
      QuietTransitive(g, asked, emptied);
      OthersKeptTransitive(g, asked, emptied, m);
      if r.Ok? {
        more := ReleaseDrained(m, todo);
        if IsLeast(m, todo) {
          ShutdownSpec.LeadsThen(limits, g, todo, moves, emptied, todo, more, registry, todo - {m}, ShutdownSpec.Going);
        }
        moves := moves + more;
        FlawlessParts(log, called, backend.log);
        QuietTransitive(g, emptied, registry);
        OthersKeptTransitive(g, emptied, registry, m);
      }
    }

    // Shutdown's lifecycle step: a model that still accepts work is told to stop.
    method AskUnload(m: ModelId, ghost todo: set<ModelId>) returns (ghost moves: seq<ShutdownSpec.Move>)
      requires Valid() && m in registry.models
      modifies this`registry
      ensures Valid()
      ensures m in registry.models && !registry.models[m].lifecycle.Accepting()
      ensures CleanModel(old(registry), m) ==> CleanModel(registry, m)
      ensures Quiet(old(registry), registry) && OthersKept(old(registry), registry, m)
      ensures registry.requestIndex == old(registry).requestIndex
      ensures IsLeast(m, todo) ==> ShutdownSpec.Leads(limits, old(registry), todo, moves, registry, todo, ShutdownSpec.Going)
    {
      hide Consistent, Lawful, Replay, Quiet, OthersKept, ShutdownSpec.Leads, ShutdownSpec.Asked, IsLeast, CleanModel, AfterUnloadRequest;
      ghost var before := registry;
      RelabelWithin(before, limits, backend.world, m);
      AskedFacts(before, limits, m, todo);
      var lifecycle := registry.models[m].lifecycle;
      moves := [];
      if lifecycle.Ready? || lifecycle.Active? {
        moves := [ShutdownSpec.AskToUnload(m)];
        var next := AfterUnloadRequest(lifecycle, CancelActive, 0).next;
        AcceptingUnload(lifecycle);
        SetLifecycle(m, next);
      }
    }

    // The ready_to_release step of shutdown.
    method ReleaseDrained(m: ModelId, ghost todo: set<ModelId>) returns (ghost moves: seq<ShutdownSpec.Move>)
      requires Valid()
      requires m in registry.models ==> registry.models[m].requests == map[] && !registry.models[m].lifecycle.Accepting()
      modifies this`registry, backend`log, backend`world
      ensures Valid()
      ensures Quiet(old(registry), registry) && OthersKept(old(registry), registry, m)
      ensures m in registry.models ==> OnlyQuarantineLeft(registry.models[m])
      ensures registry.requestIndex == old(registry).requestIndex
      ensures IsLeast(m, todo) ==> ShutdownSpec.Leads(limits, old(registry), todo, moves, registry, todo - {m}, ShutdownSpec.Going)
      ensures old(backend.log) <= backend.log
      ensures Flawless(old(backend.log), backend.log) && CleanModel(old(registry), m) ==> CleanModel(registry, m)
    {
      hide Consistent, Lawful, Replay, Quiet, OthersKept, Release, ReleaseCalls, Flawless, ShutdownSpec.Leads;
      ghost var emptied, log := registry, backend.log;
      QuietReflexive(emptied, m);
      moves := [ShutdownSpec.NextModel(m)];
      if IsLeast(m, todo) && (m in emptied.models ==> emptied.models[m].pendingSequences != map[]) {
        ShutdownSpec.LeaveLeads(limits, emptied, todo, m);
      }
      if m !in registry.models {
        return;
      }
      EmptyIsUnloading(registry, limits, backend.world, m);
      if registry.models[m].pendingSequences == map[] {
        ReleaseOfEmpty(emptied, limits, m, ShutdownOperation, ShutdownClass);
        var released;
        ghost var unloaded;
        released, unloaded := ReleaseModelWithPrimary(m, ShutdownOperation, ShutdownClass);
        moves := [ShutdownSpec.LetModelGo(m, unloaded)];
        if IsLeast(m, todo) {
          ShutdownSpec.ReleaseLeads(limits, emptied, todo, m, unloaded);
        }
        ReleaseIsQuiet(emptied, limits, m, ShutdownOperation, ShutdownClass, unloaded);
        ReleaseFlawless(emptied, limits, m, ShutdownOperation, ShutdownClass, unloaded, log);
        assert released.Ok? || released.error.RetainsResource();
      }
    }

    // Second half of shutdown: polls until nothing may be retried. The loop ends because
    // every poll uses up an attempt, although releasing a sequence can add a new
    // quarantined model with attempts of its own.
    method UseUpRetries() returns (r: Outcome<()>, ghost moves: seq<ShutdownSpec.Move>)
      requires Valid() && Drained(registry)
      modifies this`registry, backend`log, backend`world
      ensures Valid()
      ensures Quiet(old(registry), registry)
      ensures r.Ok? ==> Drained(registry) && NextCleanup(registry, limits, NothingToRetry)
      ensures r.Err? ==> r.error == LifecycleFailed(InvalidTransition)
      ensures ShutdownSpec.Leads(limits, old(registry), {}, moves, registry, {}, ShutdownSpec.Ended(r))
      ensures old(backend.log) <= backend.log
      ensures NothingQuarantined(old(registry)) ==> r.Ok? && registry == old(registry)
    {
      hide Consistent, Lawful, Replay, Quiet, CleanupEffect, CleanupCalls, NextCleanup, Drained, SequenceAttemptsLeft, ModelAttemptsLeft, NothingQuarantined, ShutdownSpec.Leads;
      ghost var g, log := registry, backend.log;
      QuietReflexive(g, 0);
      moves := [];
      ShutdownSpec.LeadsNowhere(limits, g, {});
      while true
        invariant Valid()
        invariant Quiet(g, registry)
        invariant Drained(registry)
        invariant log <= backend.log && (NothingQuarantined(g) ==> registry == g)
        invariant ShutdownSpec.Leads(limits, g, {}, moves, registry, {}, ShutdownSpec.Going)
        decreases SequenceAttemptsLeft(registry.models, limits.maximumAttempts),
                  ModelAttemptsLeft(registry.pendingModels, limits.maximumAttempts)
      {
        ghost var before := registry;
        var polled;
        ghost var c, released, unloaded;
        polled, c, released, unloaded := PollCleanup();
        PollIsQuiet(before, limits, c, released, unloaded);
        QuietTransitive(g, before, registry);
        if NothingQuarantined(before) {
          NothingQuarantinedIsIdle(before, limits, c, released, unloaded);
        }
        ghost var move := ShutdownSpec.PollOnce(c, released, unloaded);
        ghost var progress := if polled.Err? then ShutdownSpec.Rejected else if c == NothingToRetry then ShutdownSpec.Finished else ShutdownSpec.Going;
        ShutdownSpec.PollLeads(limits, before, c, released, unloaded);
        ShutdownSpec.LeadsThen(limits, g, {}, moves, before, {}, [move], registry, {}, progress);
        moves := moves + [move];
        if polled.Err? {
          return Err(polled.error), moves;
        }
        PollKeepsDrained(before, limits, c, released, unloaded);
        IdleMeansNothingToRetry(before, limits, c, released, unloaded);
        if polled.value == CleanupPoll.Idle {
          break;
        }
        PollProgresses(before, limits, c, released, unloaded);
      }
      return Ok(()), moves;
    }

    // first_pending_cleanup_state.
    method FirstPendingCleanup() returns (r: Option<RetryState>)
      requires Valid()
      requires NextCleanup(registry, limits, NothingToRetry)
      ensures r.None? <==> NothingQuarantined(registry)
      ensures r.Some? ==> FirstHeld(registry, limits, r.value) && r.value.attempts == limits.maximumAttempts
    {
      hide Consistent, Lawful, Replay;
      AttemptsBounded(registry, limits, backend.world);
      var models := set m | m in registry.models && registry.models[m].pendingSequences != map[];
      if models != {} {
        var m := First(models);
        var request := FirstKey(registry.models[m].pendingSequences);
        assert forall m', r' :: SequenceHeld(registry, m', r') ==> m' in models;
        var pending := registry.models[m].pendingSequences[request];
        assert !SequenceRetryable(registry, limits, m, request);
        return Some(RetryState(SequenceResource(m, request, pending.sequenceId), pending.failure, pending.attempts, limits.maximumAttempts));
      }
      assert forall m :: m in registry.models && registry.models[m].pendingSequences != map[] ==> m in models;
      if registry.pendingModels != map[] {
        var m := FirstKey(registry.pendingModels);
        var pending := registry.pendingModels[m];
        assert !ModelRetryable(registry, limits, m);
        return Some(RetryState(ModelResource(m), pending.failure, pending.attempts, limits.maximumAttempts));
      }
      return None;
    }

    // shutdown: unload every resident model, then use up every automatic retry.
    method Shutdown() returns (r: Outcome<(nat, nat)>, ghost moves: seq<ShutdownSpec.Move>, ghost left: set<ModelId>)
      requires Valid()
      modifies this, backend`log, backend`world
      ensures Valid()
      ensures shuttingDown
      ensures ShutdownOutcome(old(registry), limits, registry, r)
      ensures NothingQuarantined(old(registry)) && Flawless(old(backend.log), backend.log) ==> r.Ok?
      ensures r.Ok? ==> r.value == (|old(registry).models| + |old(registry).pendingModels|, old(registry).activeRequests)
      ensures ShutdownSpec.Leads(limits, old(registry), old(registry).models.Keys, moves, registry, left, ShutdownSpec.Ended(r))
      ensures ShutdownSpec.Safe(old(registry), limits) && r.Err? ==> r.error.CleanupRetryExhausted?
      ensures r.Err? && r.error.CleanupRetryExhausted? ==> FirstHeld(registry, limits, r.error.state) && r.error.state.attempts == limits.maximumAttempts
    {
      hide Consistent, Lawful, Replay, Quiet, Drained, NextCleanup, Flawless, NothingQuarantined, ShutdownSpec.Leads, ShutdownSpec.Safe;
      ghost var g, log := registry, backend.log;
      shuttingDown := true;
      ActiveBounded(g, limits, backend.world);
      SafeRuns(g, limits, backend.world);
      var initial: nat := Min(U32_MAX, |registry.models| + |registry.pendingModels|);
      var cancelled;
      cancelled, moves, left := DrainModels();
      ghost var drained, called := registry, backend.log;
      if cancelled.Err? {
        return Err(cancelled.error), moves, left;
      }
      NothingActive(registry, limits, backend.world);
      var exhausted;
      ghost var more;
      exhausted, more := UseUpRetries();
      ShutdownSpec.LeadsThen(limits, g, g.models.Keys, moves, drained, {}, more, registry, {}, ShutdownSpec.Ended(exhausted));
      moves := moves + more;
      FlawlessParts(log, called, backend.log);
      QuietTransitive(g, drained, registry);
      if exhausted.Err? {
        return Err(exhausted.error), moves, left;
      }
      NothingActive(registry, limits, backend.world);
      var pending := FirstPendingCleanup();
      if pending.Some? {
        return Err(CleanupRetryExhausted(pending.value)), moves, left;
      }
      NothingResident(registry, limits, backend.world);
      if registry.models != map[] || registry.activeRequests != 0 {
        return Err(BackendContractViolation), moves, left;
      }
      return Ok((initial, cancelled.value)), moves, left;
    }
  }

  // What fits in whole fits in part.
  lemma PartsFit(a: Footprint, b: Footprint, reserved: Footprint, slot: Footprint, budget: Budget)
    ensures RoomInBudget(reserved, Plus(a, b), budget) ==> RoomInBudget(reserved, a, budget) && FitsU64(Plus(a, b))
    ensures FitsU64(Plus(slot, Plus(a, b))) ==> FitsU64(Plus(slot, a))
  {
  }

  // The first key of a BTreeMap keyed by identity.
  method FirstKey<V>(m: map<nat, V>) returns (k: nat)
    requires m != map[]
    ensures k in m && forall x :: x in m ==> k <= x
  {
    k := First(m.Keys);
  }

  method First(s: set<nat>) returns (k: nat)
    requires s != {}
    ensures IsLeast(k, s)
  {
    LeastExists(s);
    k :| k in s && IsLeast(k, s);
  }

  // The next request a draining loop picks is active, and its slot is well shaped.
  lemma RemoveNext(g: Registry, limits: Limits, w: World, m: ModelId, r: RequestId)
    requires Consistent(g, limits, w) && m in g.models && r in g.models[m].requests
    ensures HasRequest(g, r) && g.requestIndex[r] == m
    ensures g.models[m].lifecycle.ActiveCount() == |g.models[m].requests|
  {
    hide SlotTotal, ModelsConsistent, LedgerConsistent, OwnershipConsistent, PendingIndexed, SequencesIndexed, PendingSequencesIndexed;
    SlotAt(g, limits, m);
    HasRequestWhenIndexed(g, limits, r);
  }

  function WithoutCount(r: Outcome<nat>): Outcome<()> {
    match r
    case Ok(_) => Ok(())
    case Err(error) => Err(error)
  }

  lemma JustDone(r: Outcome<()>)
    ensures r.Ok? ==> r == Ok(())
  {
    if r.Ok? {
      match r.value
      case () =>
    }
  }

  lemma NothingCancelled(g: Registry, limits: Limits, m: ModelId)
    ensures Cancels(g, limits, m, [], g, Ok(()))
  {
  }

  lemma CancelTurn(limits: Limits, m: ModelId, before: Registry, step: Removal, removed: Registry, outcome: Outcome<()>, next: Registry)
    requires m in before.models && HasRequest(before, step.request) && IsLeast(step.request, before.models[m].requests.Keys)
    requires Effect(removed, outcome) == Remove(before, limits, step.request, Cancellation, CancellationClass, step.destroyed, step.unloaded)
    requires next == if outcome.Err? && !outcome.error.RetainsResource() then removed
                     else Counted(removed, m, Min(U32_MAX, Min(U32_MAX, before.models[m].cancelledDuringUnload) + 1))
    ensures CancelStep(before, limits, m, step, next, outcome)
  {
    hide Remove, HasRequest;
  }

  // What the loop needs of one turn.
  ghost predicate CancelledFirst(g: Registry, next: Registry, m: ModelId, cancelled: nat, outcome: Outcome<()>) {
    && m in g.models
    && (outcome.Ok? ==> next.pendingModels == g.pendingModels)
    && (outcome.Err? ==> outcome.error.RetainsResource() || outcome.error == LifecycleFailed(InvalidTransition))
    && (m !in next.models ==> |g.models[m].requests| == 1)
    && (m in next.models ==>
          && |next.models[m].requests| == |g.models[m].requests| - 1
          && (outcome.Ok? ==> next.models[m].cancelledDuringUnload == Min(U32_MAX, cancelled + 1))
          && (!g.models[m].lifecycle.Accepting() ==> !next.models[m].lifecycle.Accepting()))
  }

  // What one cancellation of a draining loop leaves.
  lemma CancelledOne(g: Registry, limits: Limits, m: ModelId, r: RequestId, operation: RuntimeOperation, failure: FailureClass,
                     destroyed: bool, unloaded: bool, log: seq<Event>)
    requires HasRequest(g, r) && g.requestIndex[r] == m && g.models[m].lifecycle.ActiveCount() == |g.models[m].requests|
    ensures var e, calls := Remove(g, limits, r, operation, failure, destroyed, unloaded), RemoveCalls(g, r, destroyed, unloaded);
            && Quiet(g, e.next) && OthersKept(g, e.next, m)
            && |e.next.requestIndex| == |g.requestIndex| - 1
            && (m !in e.next.models ==> |g.models[m].requests| == 1)
            && (e.result.Ok? ==> e.next.pendingModels == g.pendingModels)
            && (m in e.next.models ==>
                  && |e.next.models[m].requests| == |g.models[m].requests| - 1
                  && e.next.models[m].cancelledDuringUnload == g.models[m].cancelledDuringUnload
                  && (!g.models[m].lifecycle.Accepting() ==> !e.next.models[m].lifecycle.Accepting()))
            && (e.result.Err? ==> e.result.error.RetainsResource() || e.result.error == LifecycleFailed(InvalidTransition))
            && log <= log + calls
            && (Flawless(log, log + calls) && CleanModel(g, m) ==> e.result.Ok? && CleanModel(e.next, m))
  {
    hide Remove, RemoveCalls, Quiet, OthersKept, Flawless, CleanModel;
    WithoutKey(g.requestIndex, r);
    RemoveIsQuiet(g, limits, r, operation, failure, destroyed, unloaded);
    RemoveOnModel(g, limits, r, operation, failure, destroyed, unloaded);
    RemoveFlawless(g, limits, r, operation, failure, destroyed, unloaded, log);
  }

  // Every run of shutdown from a safe registry goes without a lifecycle error.
  lemma SafeRuns(g: Registry, limits: Limits, w: World)
    requires Consistent(g, limits, w) && LimitsOk(limits)
    ensures forall moves, next, left, progress ::
              ShutdownSpec.Safe(g, limits) && ShutdownSpec.Leads(limits, g, g.models.Keys, moves, next, left, progress)
              ==> progress != ShutdownSpec.Rejected
  {
    hide ModelsConsistent, IndicesConsistent, LedgerConsistent, OwnershipConsistent, ShutdownSpec.Safe, ShutdownSpec.Leads;
    forall moves, next, left, progress | ShutdownSpec.Safe(g, limits) && ShutdownSpec.Leads(limits, g, g.models.Keys, moves, next, left, progress)
      ensures progress != ShutdownSpec.Rejected
    {
      ShutdownSpec.SafeLeads(limits, g, moves, next, left, progress);
    }
  }

  // The counters of a shutdown receipt never saturate.
  lemma ActiveBounded(g: Registry, limits: Limits, w: World)
    requires Consistent(g, limits, w) && LimitsOk(limits)
    ensures |g.requestIndex| == g.activeRequests <= U32_MAX
    ensures |g.models| + |g.pendingModels| <= U32_MAX
  {
    hide SlotsConsistent, GenerationsConsistent, LedgerConsistent, OwnershipConsistent,
         RequestsIndexed, PendingIndexed, SequencesIndexed, PendingSequencesIndexed;
  }

  lemma RelabelIsQuiet(g: Registry, limits: Limits, w: World, m: ModelId, cancelled: nat)
    requires Consistent(g, limits, w) && m in g.models
    ensures var next := g.(models := g.models[m := g.models[m].(cancelledDuringUnload := cancelled)]);
            Consistent(next, limits, w) && Quiet(g, next) && OthersKept(g, next, m)
  {
    hide Consistent;
    RelabelWithin(g, limits, w, m);
    RelabelKeeps(g, limits, w, m, g.models[m].lifecycle, cancelled);
  }

  lemma RelabelWithin(g: Registry, limits: Limits, w: World, m: ModelId)
    requires Consistent(g, limits, w) && m in g.models
    ensures var lifecycle := g.models[m].lifecycle;
            && lifecycle.WellFormed()
            && (lifecycle.Accepting() || lifecycle.Draining? || lifecycle.Cancelling? || lifecycle.Unloading?)
  {
    hide SlotTotal, ModelsConsistent, LedgerConsistent, OwnershipConsistent, IndicesConsistent;
    SlotAt(g, limits, m);
  }

  function EmptyRegistry(): Registry {
    Registry(map[], map[], map[], map[], map[], map[], map[], Zero(), Zero(), 0, 0, 0, map[], map[], map[], {})
  }

  // What release_model_with_primary may rely on. In particular its fourth test, on the
  // slot's own ledger, never decides: the first two already imply it.
  lemma ReleaseFacts(g: Registry, limits: Limits, w: World, m: ModelId)
    requires Consistent(g, limits, w) && LimitsOk(limits) && m in g.models
    ensures Releasable(g, m) ==>
      && g.models[m].reserved == g.models[m].modelFootprint
      && Allowed(w, PrepareUnload(g.models[m].model.key, true), limits.maximumAttempts)
      && AtMost(g.models[m].modelFootprint, g.reserved)
  {
    hide SlotShaped, SlotTotal, ModelsConsistent, IndicesConsistent, LedgerConsistent, OwnershipConsistent, Allowed, AtMost;
    SlotAt(g, limits, m);
    if Releasable(g, m) {
      EmptySlot(g.models[m]);
      UnloadAllowed(g, limits, w, m, true);
      DropModelLedger(g, limits, m);
    }
  }

  // What remove_request may rely on: every checked step before its last one succeeds.
  lemma RemoveFacts(g: Registry, limits: Limits, w: World, r: RequestId)
    requires Consistent(g, limits, w) && LimitsOk(limits) && r in g.requestIndex
    ensures HasRequest(g, r)
    ensures var slot, request := SlotOf(g, r), RequestOf(g, r);
            && AfterFinish(slot.lifecycle).result.Ok?
            && AtMost(request.workspaceFootprint, slot.reserved)
            && AtMost(WholeRequest(request), slot.reserved)
            && FitsU64(WholeRequest(request))
            && AtMost(request.backendFootprint, g.reserved)
            && Allowed(w, Destroy(request.sequence.key, true), limits.maximumAttempts)
  {
    hide SlotShaped, SlotTotal, ModelsConsistent, IndicesConsistent, LedgerConsistent, AtMost, FitsU64, AfterFinish, LiveHeld, WholeRequest, HasRequest;
    HasRequestWhenIndexed(g, limits, r);
    RemoveSlotFacts(g, limits, r);
    DropRequestLedger(g, limits, r);
    RemoveAllowed(g, limits, w, r);
  }

  lemma RemoveSlotFacts(g: Registry, limits: Limits, r: RequestId)
    requires ModelsConsistent(g, limits) && LimitsOk(limits) && HasRequest(g, r)
    ensures AfterFinish(SlotOf(g, r).lifecycle).result.Ok?
    ensures AtMost(RequestOf(g, r).workspaceFootprint, SlotOf(g, r).reserved)
    ensures AtMost(WholeRequest(RequestOf(g, r)), SlotOf(g, r).reserved) && FitsU64(WholeRequest(RequestOf(g, r)))
  {
    hide SlotShaped, SlotTotal, SlotBackend, ModelsConsistent, AtMost, FitsU64, AfterFinish, WholeRequest, Minus;
    var m := g.requestIndex[r];
    SlotAt(g, limits, m);
    DropRequestSlot(m, g.models[m], r, limits);
    QuarantineRequestSlot(m, g.models[m], r, CleanupReport(Completion, CompletionClass, Completion, CompletionClass), limits);
  }

  lemma RemoveAllowed(g: Registry, limits: Limits, w: World, r: RequestId)
    requires OwnershipConsistent(g, w) && LimitsOk(limits) && HasRequest(g, r)
    ensures Allowed(w, Destroy(RequestOf(g, r).sequence.key, true), limits.maximumAttempts)
  {
    hide LiveHeld;
    LiveRecord(g.models, g.sequenceOwners, w.sequences, g.requestIndex[r], r);
  }

  lemma EmptyIsConsistent(limits: Limits)
    ensures Consistent(EmptyRegistry(), limits, World(map[], map[]))
  {
    SumEmpty<ModelId, ModelSlot>(SlotBackend);
    SumEmpty<ModelId, PendingModel>(PendingModelPart);
    SumEmpty<RequestId, Footprint>(Identity);
    hide Sum;
  }

  // What a retry may rely on.
  lemma RetryFacts(g: Registry, limits: Limits, w: World, m: ModelId, r: RequestId)
    requires Consistent(g, limits, w) && NextCleanup(g, limits, RetryOf(m, r))
    ensures HasQuarantined(g, m, r)
    ensures var pending := g.models[m].pendingSequences[r];
            && pending.attempts < limits.maximumAttempts
            && Allowed(w, Destroy(pending.sequence.key, true), limits.maximumAttempts)
            && AtMost(pending.footprint, g.models[m].reserved)
            && AtMost(pending.footprint, g.reserved)
  {
    hide SlotShaped, SlotTotal, ModelsConsistent, IndicesConsistent, LedgerConsistent, AtMost, LiveHeld, QuarantineHeld;
    HasQuarantinedWhenHeld(g, limits, m, r);
    SlotAt(g, limits, m);
    DropQuarantinedSlot(m, g.models[m], r, limits);
    DropQuarantinedLedger(g, limits, m, r);
    QuarantineRecord(g.models, g.sequenceOwners, w.sequences, m, r);
  }

  // What poll_cleanup may rely on, whatever it selects.
  lemma PollFacts(g: Registry, limits: Limits, w: World, c: Cleanup)
    requires Consistent(g, limits, w) && NextCleanup(g, limits, c)
    ensures c.RetryOf? ==> HasQuarantined(g, c.model, c.request) && SlotShaped(c.model, g.models[c.model], limits)
  {
    hide SlotShaped, SlotTotal, ModelsConsistent, IndicesConsistent, LedgerConsistent, OwnershipConsistent;
    if c.RetryOf? {
      HasQuarantinedWhenHeld(g, limits, c.model, c.request);
      SlotAt(g, limits, c.model);
    }
  }

  lemma CleanupOfNothing(g: Registry, limits: Limits, c: Cleanup, released: bool, unloaded: bool)
    requires NextCleanup(g, limits, c) && (c.RetryOf? ==> HasQuarantined(g, c.model, c.request))
    ensures c == NothingToRetry ==>
      CleanupEffect(g, limits, c, released, unloaded) == Effect(g, Ok(CleanupPoll.Idle)) && CleanupCalls(g, limits, c, released, unloaded) == []
  {
    hide NextCleanup;
  }

  lemma RetryModelFacts(g: Registry, limits: Limits, w: World, m: ModelId)
    requires Consistent(g, limits, w) && NextCleanup(g, limits, RetryOfModel(m))
    ensures m in g.pendingModels && g.pendingModels[m].attempts < limits.maximumAttempts
    ensures Allowed(w, PrepareUnload(g.pendingModels[m].model.key, true), limits.maximumAttempts)
  {
    hide ModelsConsistent, IndicesConsistent, LedgerConsistent, OwnershipConsistent, Allowed;
    PendingUnloadAllowed(g, limits, w, m, true);
  }

  // Counting the attempt first and removing the record afterwards is the same as removing it.
  lemma RetriedThenDropped(g: Registry, m: ModelId, r: RequestId)
    requires HasQuarantined(g, m, r)
    ensures var retried := RetrySequence(g, m, r);
            && retried.models[m].pendingSequences - {r} == g.models[m].pendingSequences - {r}
            && retried.models[m := DropQuarantined(g, m, r).models[m]] == DropQuarantined(g, m, r).models
  {
  }

  lemma LoadRejectedFacts(g: Registry, limits: Limits, w: World, k: Key)
    requires Consistent(g, limits, w) && LimitsOk(limits) && k !in w.models
    requires forall s :: s in w.sequences ==> w.sequences[s].model in w.models
    ensures Allowed(Apply(w, Loaded(k)), PrepareUnload(k, true), limits.maximumAttempts)
  {
    hide ModelsConsistent, IndicesConsistent, LedgerConsistent, OwnershipConsistent;
    FreshUnloadAllowed(g, w, k, true, limits.maximumAttempts);
  }

  lemma FitsAlone(a: Footprint, b: Footprint)
    requires FitsU64(Plus(a, b))
    ensures FitsU64(b)
  {
  }

  lemma ResidentFacts(g: Registry, limits: Limits, w: World, m: ModelId)
    requires Consistent(g, limits, w) && m in g.models
    ensures g.models[m].model.key in w.models && w.models[g.models[m].model.key] == Resident
  {
    hide ModelsConsistent, IndicesConsistent, LedgerConsistent, LiveHeld, QuarantineHeld, OwnersExact;
  }

  lemma ExecuteAllowed(g: Registry, limits: Limits, w: World, r: RequestId)
    requires Consistent(g, limits, w) && HasRequest(g, r)
    ensures Allowed(w, Executed(RequestOf(g, r).sequence.key), limits.maximumAttempts)
  {
    hide ModelsConsistent, IndicesConsistent, LedgerConsistent, LiveHeld, QuarantineHeld, OwnersExact, ModelsOwned;
    LiveRecord(g.models, g.sequenceOwners, w.sequences, g.requestIndex[r], r);
  }

  lemma CheckedKeepsIdentity(kernel: Kernel, s: Sequence, tokens: seq<Token>, emit: bool, token: Token, buffer: seq<real>)
    ensures var p := PrefillChecked(kernel, s, tokens, emit, buffer).sequence;
            p.id == s.id && p.key == s.key && p.tokenCapacity == s.tokenCapacity
    ensures var d := DecodeChecked(kernel, s, token, buffer).sequence;
            d.id == s.id && d.key == s.key && d.tokenCapacity == s.tokenCapacity
  {
  }

  lemma DisjointIn(g: Registry, limits: Limits, w: World, m: ModelId)
    requires Consistent(g, limits, w)
    ensures m in g.models ==> m !in g.pendingModels
  {
    hide ModelsConsistent, IndicesConsistent, LedgerConsistent, OwnershipConsistent;
    DisjointModels(g, limits, m);
  }

  // What asking model m to stop does, and what not asking it leaves.
  lemma AskedFacts(g: Registry, limits: Limits, m: ModelId, todo: set<ModelId>)
    requires m in g.models && g.models[m].lifecycle.WellFormed()
    ensures Quiet(g, g) && OthersKept(g, g, m) && ShutdownSpec.Leads(limits, g, todo, [], g, todo, ShutdownSpec.Going)
    ensures g.models[m].lifecycle.Accepting() ==>
      var next := g.(models := g.models[m := g.models[m].(lifecycle := AfterUnloadRequest(g.models[m].lifecycle, CancelActive, 0).next)]);
      && !next.models[m].lifecycle.Accepting()
      && (CleanModel(g, m) ==> CleanModel(next, m))
      && (IsLeast(m, todo) ==> ShutdownSpec.Leads(limits, g, todo, [ShutdownSpec.AskToUnload(m)], next, todo, ShutdownSpec.Going))
  {
    hide Quiet, OthersKept, ShutdownSpec.Leads, IsLeast;
    QuietReflexive(g, m);
    ShutdownSpec.LeadsNowhere(limits, g, todo);
    if IsLeast(m, todo) && g.models[m].lifecycle.Accepting() {
      ShutdownSpec.AskLeads(limits, g, todo, m);
    }
  }

  lemma LifecycleIsQuiet(g: Registry, m: ModelId, lifecycle: State)
    requires m in g.models
    ensures var next := g.(models := g.models[m := g.models[m].(lifecycle := lifecycle)]);
            Quiet(g, next) && OthersKept(g, next, m)
  {
  }

  lemma NotInSlot(g: Registry, limits: Limits, w: World, m: ModelId, r: RequestId)
    requires Consistent(g, limits, w) && m in g.models
    requires r !in g.requestIndex && r !in g.pendingRequestIndex
    ensures r !in g.models[m].requests
  {
    hide ModelsConsistent, LedgerConsistent, OwnershipConsistent, IndicesConsistent;
    NotHeldAnywhere(g, limits, m, r);
  }

  lemma KnownHandle(g: Registry, limits: Limits, w: World, m: ModelId)
    requires Consistent(g, limits, w) && m in g.models
    ensures g.models[m].handle.id == m
  {
    hide SlotTotal, ModelsConsistent, LedgerConsistent, OwnershipConsistent, IndicesConsistent;
    SlotAt(g, limits, m);
  }

  lemma OthersStayDrained(before: Registry, after: Registry, m: ModelId, todo: set<ModelId>)
    requires OthersKept(before, after, m)
    requires forall x :: x in before.models ==> x in todo || OnlyQuarantineLeft(before.models[x])
    requires m in after.models ==> OnlyQuarantineLeft(after.models[m])
    ensures forall x :: x in after.models ==> x in todo - {m} || OnlyQuarantineLeft(after.models[x])
  {
    hide OnlyQuarantineLeft;
  }

  lemma EmptyIsUnloading(g: Registry, limits: Limits, w: World, m: ModelId)
    requires Consistent(g, limits, w) && m in g.models
    requires g.models[m].requests == map[] && !g.models[m].lifecycle.Accepting()
    ensures g.models[m].lifecycle == Unloading
  {
    hide SlotTotal, ModelsConsistent, LedgerConsistent, OwnershipConsistent, IndicesConsistent;
    SlotAt(g, limits, m);
  }

  lemma UnloadingIsEmpty(g: Registry, limits: Limits, w: World, m: ModelId)
    requires Consistent(g, limits, w) && m in g.models
    ensures g.models[m].lifecycle.Unloading? ==> g.models[m].requests == map[]
  {
    hide SlotTotal, ModelsConsistent, LedgerConsistent, OwnershipConsistent, IndicesConsistent;
    SlotAt(g, limits, m);
  }

  lemma IdleMeansNothingToRetry(g: Registry, limits: Limits, c: Cleanup, released: bool, unloaded: bool)
    requires NextCleanup(g, limits, c)
    requires c.RetryOf? ==> HasQuarantined(g, c.model, c.request)
    requires CleanupEffect(g, limits, c, released, unloaded).result.Ok?
    ensures CleanupEffect(g, limits, c, released, unloaded).result.value == CleanupPoll.Idle <==> c == NothingToRetry
    ensures c == NothingToRetry ==> CleanupEffect(g, limits, c, released, unloaded).next == g
  {
    hide NextCleanup, Release, Minus;
  }

  lemma AttemptsBounded(g: Registry, limits: Limits, w: World)
    requires Consistent(g, limits, w)
    ensures forall m :: m in g.pendingModels ==> g.pendingModels[m].attempts <= limits.maximumAttempts
    ensures forall m, r :: m in g.models && r in g.models[m].pendingSequences ==> g.models[m].pendingSequences[r].attempts <= limits.maximumAttempts
  {
    hide SlotTotal, LedgerConsistent, OwnershipConsistent, IndicesConsistent, GenerationsConsistent;
  }

  // What an accepted unload request does to the lifecycle.
  lemma UnloadSteps(s: State, policy: UnloadPolicy, now: nat)
    requires s.WellFormed() && (s.Accepting() || s.Draining? || s.Cancelling? || s.Unloading?)
    ensures var step := AfterUnloadRequest(s, policy, now);
            && step.next.WellFormed() && step.next.ActiveCount() == s.ActiveCount()
            && (step.result.Ok? ==>
                  match step.result.value
                  case NoAction => s.Active? && policy.Drain? && step.next.Draining? && step.next.window == DrainWindow(now, policy.timeout)
                  case CancelActiveRequests(_) => step.next.Cancelling?
                  case ReleaseModel => step.next.Unloading?
                  case UnloadComplete => false)
  {
  }

  // The lifecycle moved as the action says, and nothing else did.
  ghost predicate UnloadMoved(g: Registry, handle: ModelHandle, action: Action, moved: State, next: Registry) {
    && handle.id in g.models && g.models[handle.id].handle == handle && action != UnloadComplete
    && next == g.(models := g.models[handle.id := g.models[handle.id].(lifecycle := moved)])
    && (action.NoAction? ==> g.models[handle.id].lifecycle.Active? && moved.Draining?)
    && (action.CancelActiveRequests? ==> moved.Cancelling?)
    && (action.ReleaseModel? ==> moved == Unloading)
  }

  // What the action's own work answers.
  ghost predicate UnloadActed(g: Registry, handle: ModelHandle, action: Action, r: Outcome<UnloadReceipt>, before: seq<Event>, after: seq<Event>) {
    && (action.NoAction? ==> r == Ok(UnloadReceipt(handle, StillDraining, 0)))
    && (action.CancelActiveRequests? && r.Ok? ==> handle.id in g.models && r.value == UnloadReceipt(handle, UnloadDone, CancelledBy(g.models[handle.id])))
    && (action.ReleaseModel? && r.Ok? ==> r.value == UnloadReceipt(handle, UnloadDone, 0))
    && (handle.id in g.models && CleanModel(g, handle.id) && Flawless(before, after) ==> r.Ok?)
  }

  // What the lifecycle's own step makes of the request.
  lemma UnloadRefusal(g: Registry, limits: Limits, handle: ModelHandle, policy: UnloadPolicy, now: nat)
    requires handle.id in g.models && g.models[handle.id].handle == handle && g.models[handle.id].lifecycle.WellFormed()
    requires AfterUnloadRequest(g.models[handle.id].lifecycle, policy, now).result.Err?
    ensures var error := LifecycleFailed(AfterUnloadRequest(g.models[handle.id].lifecycle, policy, now).result.error);
            UnloadMeets(g, limits, handle, policy, now, g, Err(error)) && UnloadRefused(g, handle, policy, error)
  {
    hide AbsentAnswer;
  }

  lemma UnloadAnswers(g: Registry, limits: Limits, handle: ModelHandle, policy: UnloadPolicy, now: nat, next: Registry, r: Outcome<UnloadReceipt>)
    requires handle.id in g.models && g.models[handle.id].handle == handle && g.models[handle.id].lifecycle.WellFormed()
    requires AfterUnloadRequest(g.models[handle.id].lifecycle, policy, now).result.Ok?
    requires match AfterUnloadRequest(g.models[handle.id].lifecycle, policy, now).result.value
             case NoAction =>
               && r == Ok(UnloadReceipt(handle, StillDraining, 0))
               && handle.id in next.models && next.models[handle.id].lifecycle == AfterUnloadRequest(g.models[handle.id].lifecycle, policy, now).next
             case CancelActiveRequests(_) => r.Ok? ==> r.value == UnloadReceipt(handle, UnloadDone, CancelledBy(g.models[handle.id]))
             case ReleaseModel => r.Ok? ==> r.value == UnloadReceipt(handle, UnloadDone, 0)
             case UnloadComplete => false
    ensures UnloadMeets(g, limits, handle, policy, now, next, r)
  {
    hide AbsentAnswer;
  }

  lemma CancelledAlike(slot: ModelSlot, lifecycle: State)
    ensures CancelledBy(slot.(lifecycle := lifecycle)) == CancelledBy(slot)
  {
  }

  lemma UnloadUnmoved(g: Registry, limits: Limits, handle: ModelHandle, policy: UnloadPolicy, now: nat)
    ensures forall error :: UnloadOutcome(g, handle.id, g, Err(error))
    ensures handle.id !in g.models ==>
              && UnloadOutcome(g, handle.id, g, AbsentAnswer(g, limits, handle))
              && UnloadMeets(g, limits, handle, policy, now, g, AbsentAnswer(g, limits, handle))
    ensures handle.id in g.models && g.models[handle.id].handle != handle ==>
              var error := StaleModelHandle(handle, g.models[handle.id].handle);
              UnloadMeets(g, limits, handle, policy, now, g, Err(error)) && UnloadRefused(g, handle, policy, error)
    ensures AbsentAnswer(g, limits, handle).Ok? ==> AbsentAnswer(g, limits, handle).value.status == AlreadyAbsent
    ensures Quiet(g, g) && OthersKept(g, g, handle.id)
  {
    QuietReflexive(g, handle.id);
    hide Quiet, OthersKept;
  }

  lemma UnloadDrains(g: Registry, handle: ModelHandle, lifecycle: State)
    requires handle.id in g.models && g.models[handle.id].lifecycle.Active? && lifecycle.Draining?
    ensures UnloadOutcome(g, handle.id, g.(models := g.models[handle.id := g.models[handle.id].(lifecycle := lifecycle)]),
                          Ok(UnloadReceipt(handle, StillDraining, 0)))
  {
    LifecycleIsQuiet(g, handle.id, lifecycle);
    hide Quiet, OthersKept;
  }

  lemma CleanAlike(before: Registry, after: Registry, m: ModelId)
    requires m in before.models && m in after.models && after.pendingModels == before.pendingModels
    requires after.models[m].pendingSequences == before.models[m].pendingSequences
    ensures CleanModel(before, m) <==> CleanModel(after, m)
  {
  }

  lemma CleanEverywhere(before: Registry, after: Registry, m: ModelId)
    requires OthersKept(before, after, m)
    ensures NothingQuarantined(before) ==> CleanModel(before, m)
    ensures NothingQuarantined(before) && CleanModel(after, m) ==> NothingQuarantined(after)
  {
  }

  lemma NothingActive(g: Registry, limits: Limits, w: World)
    requires Consistent(g, limits, w) && Drained(g)
    ensures g.requestIndex == map[]
  {
    hide ModelsConsistent, LedgerConsistent, OwnershipConsistent, RequestsIndexed, PendingIndexed, SequencesIndexed, PendingSequencesIndexed;
    NoneActive(g.models, g.requestIndex);
  }

  lemma NothingResident(g: Registry, limits: Limits, w: World)
    requires Consistent(g, limits, w) && Drained(g) && NothingQuarantined(g)
    ensures g.models == map[] && g.pendingModels == map[] && g.activeRequests == 0 && g.pendingRequestIndex == map[]
  {
    hide ModelsConsistent, LedgerConsistent, OwnershipConsistent, RequestsIndexed, PendingIndexed, SequencesIndexed, PendingSequencesIndexed;
    NothingActive(g, limits, w);
    NoneQuarantined(g.models, g.pendingRequestIndex);
    assert g.models.Keys == {};
  }

  lemma AcceptingUnload(s: State)
    requires s.WellFormed() && s.Accepting()
    ensures var step := AfterUnloadRequest(s, CancelActive, 0);
            && step.next.WellFormed() && step.next.ActiveCount() == s.ActiveCount()
            && (step.next.Cancelling? || step.next.Unloading?)
  {
  }

  // A drained model without quarantine always leaves the resident set.
  lemma ReleaseOfEmpty(g: Registry, limits: Limits, m: ModelId, operation: RuntimeOperation, failure: FailureClass)
    requires Releasable(g, m) && g.models[m].lifecycle == Unloading
    ensures forall unloaded {:trigger Release(g, limits, m, operation, failure, unloaded)} ::
              var e := Release(g, limits, m, operation, failure, unloaded);
              m !in e.next.models && (e.result.Ok? || e.result.error.RetainsResource())
  {
  }
}
