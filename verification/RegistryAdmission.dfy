// Registry transitions that admit a request, or quarantine a rejected sequence.
module RegistryAdmission {
  import opened Footprints
  import opened Lifecycle
  import opened RuntimeTypes
  import opened BackendProtocol
  import opened Registry
  import opened RegistryIndices
  import opened RegistrySteps

  // What admission has checked before the backend creates the sequence.
  ghost predicate RoomForRequest(g: Registry, limits: Limits, m: ModelId, r: RequestId, sid: SequenceId) {
    && m in g.models
    && g.models[m].lifecycle.Accepting()
    && r !in g.requestIndex && r !in g.pendingRequestIndex
    && sid !in g.sequenceIndex && sid !in g.pendingSequenceIndex
    && g.activeRequests + g.pendingCleanupSequences < limits.maximumRequests
    && |g.models[m].requests| + |g.models[m].pendingSequences| < g.models[m].descriptor.maximumSequences
  }

  // ... and that its memory fits both ledgers.
  ghost predicate Affordable(g: Registry, limits: Limits, m: ModelId, f: Footprint)
    requires m in g.models
  {
    && FitsU64(Plus(g.reserved, f))
    && WithinBudget(Plus(g.reserved, f), limits.budget)
    && FitsU64(Plus(g.models[m].reserved, f))
  }

  // ----- An admitted request -----

  ghost function SlotWithRequest(slot: ModelSlot, r: RequestId, request: RequestSlot): ModelSlot
    requires slot.lifecycle.WellFormed()
  {
    slot.(requests := slot.requests[r := request],
          reserved := Plus(slot.reserved, WholeRequest(request)),
          lifecycle := AfterStart(slot.lifecycle).next)
  }

  // `tracked` says whether the scheduler holds a host workspace for the request.
  ghost function AddRequest(g: Registry, m: ModelId, r: RequestId, request: RequestSlot, tracked: bool): Registry
    requires m in g.models && g.models[m].lifecycle.WellFormed()
  {
    var ws := request.workspaceFootprint;
    g.(models := g.models[m := SlotWithRequest(g.models[m], r, request)],
       requestIndex := g.requestIndex[r := m],
       sequenceIndex := g.sequenceIndex[request.sequence.id := r],
       activeRequests := g.activeRequests + 1,
       reserved := Plus(g.reserved, WholeRequest(request)),
       generationWorkspaces := g.generationWorkspaces + if tracked then 1 else 0,
       reservedWorkspace := if tracked then Plus(g.reservedWorkspace, ws) else g.reservedWorkspace,
       workspaces := if tracked then g.workspaces[r := ws] else g.workspaces,
       sequenceOwners := g.sequenceOwners[request.sequence.key := Owner(m, r)])
  }

  lemma NotHeldAnywhere(g: Registry, limits: Limits, m: ModelId, r: RequestId)
    requires IndicesConsistent(g, limits) && m in g.models
    requires r !in g.requestIndex && r !in g.pendingRequestIndex
    ensures r !in g.models[m].requests && r !in g.models[m].pendingSequences
  {
    hide SequencesIndexed, PendingSequencesIndexed;
  }

  lemma SlotWithRequestShaped(m: ModelId, slot: ModelSlot, r: RequestId, request: RequestSlot, limits: Limits)
    requires SlotShaped(m, slot, limits) && slot.reserved == SlotTotal(slot)
    requires slot.lifecycle.Accepting() && r !in slot.requests && r !in slot.pendingSequences
    requires |slot.requests| + |slot.pendingSequences| < slot.descriptor.maximumSequences
    requires FitsU64(Plus(slot.reserved, WholeRequest(request)))
    ensures AfterStart(slot.lifecycle).result.Ok?
    ensures var next := SlotWithRequest(slot, r, request);
            && SlotShaped(m, next, limits) && next.reserved == SlotTotal(next)
            && SlotBackend(next) == Plus(SlotBackend(slot), request.backendFootprint)
  {
    hide Sum;
    SumInsert(slot.requests, WholeRequest, r, request);
    SumInsert(slot.requests, BackendPart, r, request);
    WithNewKey(slot.requests, r, request);
  }

  lemma AddRequestModels(g: Registry, limits: Limits, m: ModelId, r: RequestId, request: RequestSlot, tracked: bool)
    requires ModelsConsistent(g, limits) && IndicesConsistent(g, limits)
    requires RoomForRequest(g, limits, m, r, request.sequence.id) && Affordable(g, limits, m, WholeRequest(request))
    ensures g.models[m].lifecycle.WellFormed() && AfterStart(g.models[m].lifecycle).result.Ok?
    ensures ModelsConsistent(AddRequest(g, m, r, request, tracked), limits)
  {
    hide SlotShaped, SlotTotal, SlotBackend, ModelsConsistent, IndicesConsistent;
    NotHeldAnywhere(g, limits, m, r);
    SlotAt(g, limits, m);
    ShapedIsWellFormed(m, g.models[m], limits);
    SlotWithRequestShaped(m, g.models[m], r, request, limits);
    SlotReplacedModels(g, AddRequest(g, m, r, request, tracked), limits, m, SlotWithRequest(g.models[m], r, request));
  }

  lemma ShapedIsWellFormed(m: ModelId, slot: ModelSlot, limits: Limits)
    requires SlotShaped(m, slot, limits)
    ensures slot.lifecycle.WellFormed()
  {
  }

  lemma AddRequestIndices(g: Registry, limits: Limits, m: ModelId, r: RequestId, request: RequestSlot, tracked: bool)
    requires IndicesConsistent(g, limits) && RoomForRequest(g, limits, m, r, request.sequence.id)
    requires g.models[m].lifecycle.WellFormed()
    ensures IndicesConsistent(AddRequest(g, m, r, request, tracked), limits)
  {
    hide RequestsIndexed, SequencesIndexed, PendingIndexed, PendingSequencesIndexed;
    var slot := SlotWithRequest(g.models[m], r, request);
    ActiveAdded(g.models, g.requestIndex, g.sequenceIndex, m, slot, r, request);
    QuarantineKept(g.models, g.pendingRequestIndex, g.pendingSequenceIndex, m, slot);
    WithNewKey(g.requestIndex, r, m);
  }

  lemma AddRequestLedger(g: Registry, limits: Limits, m: ModelId, r: RequestId, request: RequestSlot, tracked: bool)
    requires LedgerConsistent(g, limits) && ModelsConsistent(g, limits) && IndicesConsistent(g, limits)
    requires RoomForRequest(g, limits, m, r, request.sequence.id) && Affordable(g, limits, m, WholeRequest(request))
    requires g.models[m].lifecycle.WellFormed()
    requires if tracked then r !in g.workspaces else request.workspaceFootprint == Zero()
    ensures LedgerConsistent(AddRequest(g, m, r, request, tracked), limits)
  {
    hide Sum, SlotShaped, ModelsConsistent, SlotTotal, SlotBackend, SlotWithRequest, BackendTotal, FitsU64, WithinBudget, IndicesConsistent;
    var slot := SlotWithRequest(g.models[m], r, request);
    SlotAt(g, limits, m);
    NotHeldAnywhere(g, limits, m, r);
    SlotWithRequestShaped(m, g.models[m], r, request, limits);
    SlotGrowsTotal(g.models, g.pendingModels, m, slot, request.backendFootprint);
    if tracked {
      SumInsert(g.workspaces, Identity, r, request.workspaceFootprint);
      WithNewKey(g.workspaces, r, request.workspaceFootprint);
    }
  }

  lemma AddRequestOwnership(g: Registry, limits: Limits, w: World, m: ModelId, r: RequestId, request: RequestSlot, tracked: bool)
    requires OwnershipConsistent(g, w) && m in g.models && g.models[m].lifecycle.WellFormed()
    requires r !in g.models[m].requests && r !in g.models[m].pendingSequences
    requires request.sequence.key !in w.sequences
    ensures OwnershipConsistent(AddRequest(g, m, r, request, tracked), Apply(w, Created(request.sequence.key, g.models[m].model.key)))
  {
    hide LiveHeld, QuarantineHeld, ModelsOwned, OnlyChanges;
    var slot, k := SlotWithRequest(g.models[m], r, request), request.sequence.key;
    var owners, record := g.sequenceOwners[k := Owner(m, r)], SequenceRecord(g.models[m].model.key, Live);
    var records := w.sequences[k := record];
    RecordOwned(k, g.sequenceOwners, Owner(m, r), w.sequences, record);
    LiveAdded(g.models, g.sequenceOwners, owners, w.sequences, records, m, slot, r, request, k);
    QuarantinedKept(g.models, g.sequenceOwners, owners, w.sequences, records, m, slot, k);
    ModelKept(g.models, g.pendingModels, g.modelOwners, w.models, m, slot);
  }

  lemma AddRequestKeeps(g: Registry, limits: Limits, w: World, m: ModelId, r: RequestId, request: RequestSlot, tracked: bool)
    requires Consistent(g, limits, w)
    requires RoomForRequest(g, limits, m, r, request.sequence.id) && Affordable(g, limits, m, WholeRequest(request))
    requires if tracked then r !in g.workspaces else request.workspaceFootprint == Zero()
    requires request.sequence.key !in w.sequences
    ensures g.models[m].lifecycle.WellFormed() && AfterStart(g.models[m].lifecycle).result.Ok?
    ensures Consistent(AddRequest(g, m, r, request, tracked), limits, Apply(w, Created(request.sequence.key, g.models[m].model.key)))
  {
    hide ModelsConsistent, IndicesConsistent, LedgerConsistent, OwnershipConsistent, Apply, AddRequest, Affordable;
    AddRequestModels(g, limits, m, r, request, tracked);
    AddRequestIndices(g, limits, m, r, request, tracked);
    AddRequestLedger(g, limits, m, r, request, tracked);
    NotHeldAnywhere(g, limits, m, r);
    AddRequestOwnership(g, limits, w, m, r, request, tracked);
  }

  // ----- A sequence that was created, rejected, and could not be destroyed -----

  ghost function SlotWithRejected(slot: ModelSlot, r: RequestId, pending: PendingSequence): ModelSlot {
    slot.(pendingSequences := slot.pendingSequences[r := pending],
          reserved := Plus(slot.reserved, pending.footprint),
          poisoned := true)
  }

  ghost function AddRejected(g: Registry, m: ModelId, r: RequestId, pending: PendingSequence): Registry
    requires m in g.models
  {
    g.(models := g.models[m := SlotWithRejected(g.models[m], r, pending)],
       pendingRequestIndex := g.pendingRequestIndex[r := m],
       pendingSequenceIndex := g.pendingSequenceIndex[pending.sequenceId := r],
       pendingCleanupSequences := g.pendingCleanupSequences + 1,
       reserved := Plus(g.reserved, pending.footprint),
       sequenceOwners := g.sequenceOwners[pending.sequence.key := Owner(m, r)])
  }

  lemma SlotWithRejectedShaped(m: ModelId, slot: ModelSlot, r: RequestId, pending: PendingSequence, limits: Limits)
    requires SlotShaped(m, slot, limits) && slot.reserved == SlotTotal(slot) && limits.maximumAttempts >= 1
    requires r !in slot.requests && r !in slot.pendingSequences
    requires pending.request == r && pending.attempts == 1
    requires |slot.requests| + |slot.pendingSequences| < slot.descriptor.maximumSequences
    requires FitsU64(Plus(slot.reserved, pending.footprint))
    ensures var next := SlotWithRejected(slot, r, pending);
            && SlotShaped(m, next, limits) && next.reserved == SlotTotal(next)
            && SlotBackend(next) == Plus(SlotBackend(slot), pending.footprint)
  {
    hide Sum;
    SumInsert(slot.pendingSequences, PendingPart, r, pending);
    WithNewKey(slot.pendingSequences, r, pending);
  }

  lemma AddRejectedRegistry(g: Registry, limits: Limits, m: ModelId, r: RequestId, pending: PendingSequence)
    requires ModelsConsistent(g, limits) && IndicesConsistent(g, limits) && limits.maximumAttempts >= 1
    requires RoomForRequest(g, limits, m, r, pending.sequenceId) && Affordable(g, limits, m, pending.footprint)
    requires pending.request == r && pending.attempts == 1
    ensures ModelsConsistent(AddRejected(g, m, r, pending), limits)
    ensures SlotBackend(SlotWithRejected(g.models[m], r, pending)) == Plus(SlotBackend(g.models[m]), pending.footprint)
  {
    hide SlotShaped, SlotTotal, SlotBackend, ModelsConsistent, IndicesConsistent;
    NotHeldAnywhere(g, limits, m, r);
    SlotAt(g, limits, m);
    SlotWithRejectedShaped(m, g.models[m], r, pending, limits);
    SlotReplacedModels(g, AddRejected(g, m, r, pending), limits, m, SlotWithRejected(g.models[m], r, pending));
  }

  lemma AddRejectedIndices(g: Registry, limits: Limits, m: ModelId, r: RequestId, pending: PendingSequence)
    requires IndicesConsistent(g, limits) && RoomForRequest(g, limits, m, r, pending.sequenceId)
    ensures IndicesConsistent(AddRejected(g, m, r, pending), limits)
  {
    hide RequestsIndexed, SequencesIndexed, PendingIndexed, PendingSequencesIndexed, SameRequests;
    var slot := SlotWithRejected(g.models[m], r, pending);
    SameRequestsAsSelf(slot, g.models[m]);
    ActiveKept(g.models, g.requestIndex, g.sequenceIndex, m, slot);
    QuarantineAdded(g.models, g.pendingRequestIndex, g.pendingSequenceIndex, m, slot, r, pending);
    WithNewKey(g.pendingRequestIndex, r, m);
  }

  lemma SameRequestsAsSelf(a: ModelSlot, b: ModelSlot)
    requires a.requests == b.requests
    ensures SameRequests(a, b)
  {
  }

  lemma AddRejectedLedger(g: Registry, limits: Limits, m: ModelId, r: RequestId, pending: PendingSequence)
    requires LedgerConsistent(g, limits) && m in g.models && Affordable(g, limits, m, pending.footprint)
    requires SlotBackend(SlotWithRejected(g.models[m], r, pending)) == Plus(SlotBackend(g.models[m]), pending.footprint)
    ensures LedgerConsistent(AddRejected(g, m, r, pending), limits)
  {
    hide Sum, SlotBackend, SlotWithRejected, BackendTotal, FitsU64, WithinBudget;
    SlotGrowsTotal(g.models, g.pendingModels, m, SlotWithRejected(g.models[m], r, pending), pending.footprint);
  }

  lemma AddRejectedOwnership(g: Registry, w: World, m: ModelId, r: RequestId, pending: PendingSequence)
    requires OwnershipConsistent(g, w) && m in g.models
    requires r !in g.models[m].requests && r !in g.models[m].pendingSequences
    requires pending.sequence.key !in w.sequences && pending.attempts == 1
    ensures OwnershipConsistent(AddRejected(g, m, r, pending),
              Apply(Apply(w, Created(pending.sequence.key, g.models[m].model.key)), Destroy(pending.sequence.key, false)))
  {
    hide LiveHeld, QuarantineHeld, ModelsOwned, OnlyChanges, SameRequests;
    var slot, k := SlotWithRejected(g.models[m], r, pending), pending.sequence.key;
    var owners, record := g.sequenceOwners[k := Owner(m, r)], SequenceRecord(g.models[m].model.key, DestroyFailed(1));
    var records := w.sequences[k := record];
    var created := Apply(w, Created(k, g.models[m].model.key));
    ApplyDestroy(created, k, false);
    assert created.sequences[k := record] == records;
    RecordOwned(k, g.sequenceOwners, Owner(m, r), w.sequences, record);
    SameRequestsAsSelf(slot, g.models[m]);
    LiveKept(g.models, g.sequenceOwners, owners, w.sequences, records, m, slot, k);
    QuarantinedAdded(g.models, g.sequenceOwners, owners, w.sequences, records, m, slot, r, pending, k);
    ModelKept(g.models, g.pendingModels, g.modelOwners, w.models, m, slot);
  }

  lemma AddRejectedKeeps(g: Registry, limits: Limits, w: World, m: ModelId, r: RequestId, pending: PendingSequence)
    requires Consistent(g, limits, w) && limits.maximumAttempts >= 1
    requires RoomForRequest(g, limits, m, r, pending.sequenceId) && Affordable(g, limits, m, pending.footprint)
    requires pending.request == r && pending.attempts == 1 && pending.sequence.key !in w.sequences
    ensures Consistent(AddRejected(g, m, r, pending), limits,
              Apply(Apply(w, Created(pending.sequence.key, g.models[m].model.key)), Destroy(pending.sequence.key, false)))
  {
    hide ModelsConsistent, IndicesConsistent, LedgerConsistent, OwnershipConsistent, Apply, AddRejected, Affordable;
    AddRejectedRegistry(g, limits, m, r, pending);
    AddRejectedIndices(g, limits, m, r, pending);
    AddRejectedLedger(g, limits, m, r, pending);
    NotHeldAnywhere(g, limits, m, r);
    AddRejectedOwnership(g, w, m, r, pending);
  }

  // A rejected sequence that was destroyed at once leaves the registry as it was.
  lemma RejectedSequenceKeeps(g: Registry, limits: Limits, w: World, k: Key, modelKey: Key)
    requires Consistent(g, limits, w) && k !in w.sequences
    ensures Consistent(g, limits, Apply(Apply(w, Created(k, modelKey)), Destroy(k, true)))
  {
    hide ModelsConsistent, IndicesConsistent, LedgerConsistent, LiveHeld, QuarantineHeld, ModelsOwned, OwnersExact;
    var created := Apply(w, Created(k, modelKey));
    ApplyDestroy(created, k, true);
    assert created.sequences[k := SequenceRecord(modelKey, Destroyed)] == w.sequences[k := SequenceRecord(modelKey, Destroyed)];
    HeldAfterRejected(g.models, g.sequenceOwners, w.sequences, k, modelKey);
  }

  lemma HeldAfterRejected(models: Models, owners: map<Key, Owner>, records: map<Key, SequenceRecord>, k: Key, modelKey: Key)
    requires OwnersExact(owners, records) && LiveHeld(models, owners, records) && QuarantineHeld(models, owners, records)
    requires k !in records
    ensures var after := records[k := SequenceRecord(modelKey, Destroyed)];
            OwnersExact(owners, after) && LiveHeld(models, owners, after) && QuarantineHeld(models, owners, after)
  {
  }
}
