// Registry transitions that admit or release whole models.
module RegistryModelSteps {
  import opened Footprints
  import opened Lifecycle
  import opened RuntimeTypes
  import opened BackendProtocol
  import opened Backends
  import opened Registry
  import opened RegistryIndices
  import opened RegistrySteps

  // The conditions under which a resident model may be released.
  ghost predicate Releasable(g: Registry, m: ModelId) {
    && m in g.models
    && g.models[m].requests == map[]
    && g.models[m].pendingSequences == map[]
  }

  // A resident model holding nothing: its slot ledger is the model alone.
  lemma EmptySlot(slot: ModelSlot)
    requires slot.requests == map[] && slot.pendingSequences == map[]
    ensures SlotTotal(slot) == slot.modelFootprint && SlotBackend(slot) == slot.modelFootprint
  {
    SumEmpty<RequestId, RequestSlot>(WholeRequest);
    SumEmpty<RequestId, RequestSlot>(BackendPart);
    SumEmpty<RequestId, PendingSequence>(PendingPart);
    hide Sum;
  }

  // prepare_unload is allowed for a model that holds nothing.
  lemma UnloadAllowed(g: Registry, limits: Limits, w: World, m: ModelId, ok: bool)
    requires OwnershipConsistent(g, w) && Releasable(g, m) && limits.maximumAttempts >= 1
    ensures Allowed(w, PrepareUnload(g.models[m].model.key, ok), limits.maximumAttempts)
  {
    var k := g.models[m].model.key;
    forall s | s in w.sequences && w.sequences[s].model == k
      ensures w.sequences[s].status == Destroyed
    {
      if w.sequences[s].status != Destroyed {
        HolderOf(g, w, s);
      }
    }
  }

  // The holder of an unreleased sequence is the resident model it was created on.
  lemma HolderOf(g: Registry, w: World, s: Key)
    requires OwnershipConsistent(g, w)
    requires s in w.sequences && w.sequences[s].status != Destroyed
    ensures s in g.sequenceOwners
    ensures var o := g.sequenceOwners[s];
            && o.model in g.models
            && g.models[o.model].model.key == w.sequences[s].model
            && (o.request in g.models[o.model].requests || o.request in g.models[o.model].pendingSequences)
            && (forall m :: m in g.models && g.models[m].model.key == w.sequences[s].model ==> m == o.model)
  {
    assert w.sequences[s].status == Live || w.sequences[s].status.DestroyFailed?;
  }

  // ----- Releasing a resident model -----

  ghost function DropModel(g: Registry, m: ModelId): Registry
    requires Releasable(g, m)
  {
    g.(models := g.models - {m},
       reserved := Minus(g.reserved, g.models[m].modelFootprint),
       modelOwners := g.modelOwners - {g.models[m].model.key})
  }

  ghost function PendingUnload(slot: ModelSlot, report: CleanupReport): PendingModel {
    PendingModel(slot.model, slot.modelFootprint, report, 1, slot.cancelledDuringUnload)
  }

  ghost function QuarantineModel(g: Registry, m: ModelId, report: CleanupReport): Registry
    requires Releasable(g, m)
  {
    g.(models := g.models - {m},
       pendingModels := g.pendingModels[m := PendingUnload(g.models[m], report)])
  }

  lemma ModelRemovedIndices(g: Registry, limits: Limits, m: ModelId)
    requires Releasable(g, m) && IndicesConsistent(g, limits)
    ensures IndicesConsistent(g.(models := g.models - {m}), limits)
  {
    hide RequestsIndexed, SequencesIndexed, PendingIndexed, PendingSequencesIndexed;
    ActiveModelRemoved(g.models, g.requestIndex, g.sequenceIndex, m);
    QuarantineModelRemoved(g.models, g.pendingRequestIndex, g.pendingSequenceIndex, m);
  }

  lemma DropModelModels(g: Registry, limits: Limits, m: ModelId)
    requires Releasable(g, m) && ModelsConsistent(g, limits)
    ensures ModelsConsistent(DropModel(g, m), limits)
  {
    hide SlotsConsistent, GenerationsConsistent, Minus;
    WithoutKey(g.models, m);
    SlotsRemoved(g.models, limits, m);
    GenerationsShrink(g.models, g.pendingModels, g.generations, g.issued, g.models - {m}, g.pendingModels);
  }

  lemma DropModelLedger(g: Registry, limits: Limits, m: ModelId)
    requires Releasable(g, m) && LedgerConsistent(g, limits)
    ensures LedgerConsistent(DropModel(g, m), limits)
    ensures AtMost(g.models[m].modelFootprint, g.reserved)
  {
    hide Sum, SlotBackend, FitsU64, WithinBudget, AtMost, Minus;
    var f := g.models[m].modelFootprint;
    EmptySlot(g.models[m]);
    SumRemove(g.models, SlotBackend, m);
    assert BackendTotal(g.models, g.pendingModels) == Plus(BackendTotal(g.models - {m}, g.pendingModels), f);
    LedgerShrinks(BackendTotal(g.models - {m}, g.pendingModels), f, g.reservedWorkspace, limits.budget);
  }

  lemma DropModelOwnership(g: Registry, w: World, m: ModelId)
    requires Releasable(g, m) && OwnershipConsistent(g, w)
    ensures OwnershipConsistent(DropModel(g, m), Apply(w, PrepareUnload(g.models[m].model.key, true)))
  {
    var k := g.models[m].model.key;
    assert k in w.models;
    ApplyUnload(w, k, true);
    hide LiveHeld, QuarantineHeld, ModelsOwned, Apply;
    HeldModelRemoved(g.models, g.sequenceOwners, w.sequences, m);
    ModelUnloaded(g.models, g.pendingModels, g.modelOwners, w.models, m, k);
  }

  lemma DropModelKeeps(g: Registry, limits: Limits, w: World, m: ModelId)
    requires Releasable(g, m) && Consistent(g, limits, w)
    ensures Consistent(DropModel(g, m), limits, Apply(w, PrepareUnload(g.models[m].model.key, true)))
  {
    hide ModelsConsistent, LedgerConsistent, OwnershipConsistent, Apply, IndicesConsistent, DropModel;
    DropModelModels(g, limits, m);
    DropModelIndices(g, limits, m);
    DropModelLedger(g, limits, m);
    DropModelOwnership(g, w, m);
  }

  lemma DropModelIndices(g: Registry, limits: Limits, m: ModelId)
    requires Releasable(g, m) && IndicesConsistent(g, limits)
    ensures IndicesConsistent(DropModel(g, m), limits)
  {
    hide RequestsIndexed, SequencesIndexed, PendingIndexed, PendingSequencesIndexed;
    ModelRemovedIndices(g, limits, m);
  }

  lemma QuarantineModelModels(g: Registry, limits: Limits, m: ModelId, report: CleanupReport)
    requires Releasable(g, m) && ModelsConsistent(g, limits) && limits.maximumAttempts >= 1
    ensures ModelsConsistent(QuarantineModel(g, m, report), limits)
  {
    hide SlotsConsistent, GenerationsConsistent;
    var pending := PendingUnload(g.models[m], report);
    WithoutKey(g.models, m);
    WithNewKey(g.pendingModels, m, pending);
    SlotsRemoved(g.models, limits, m);
    GenerationsShrink(g.models, g.pendingModels, g.generations, g.issued, g.models - {m}, g.pendingModels[m := pending]);
  }

  lemma QuarantineModelLedger(g: Registry, limits: Limits, m: ModelId, report: CleanupReport)
    requires Releasable(g, m) && LedgerConsistent(g, limits) && m !in g.pendingModels
    ensures LedgerConsistent(QuarantineModel(g, m, report), limits)
  {
    hide Sum, SlotBackend, FitsU64, WithinBudget;
    EmptySlot(g.models[m]);
    SumRemove(g.models, SlotBackend, m);
    SumInsert(g.pendingModels, PendingModelPart, m, PendingUnload(g.models[m], report));
  }

  lemma QuarantineModelOwnership(g: Registry, w: World, m: ModelId, report: CleanupReport)
    requires Releasable(g, m) && OwnershipConsistent(g, w) && m !in g.pendingModels
    ensures OwnershipConsistent(QuarantineModel(g, m, report), Apply(w, PrepareUnload(g.models[m].model.key, false)))
  {
    var k := g.models[m].model.key;
    assert k in w.models && w.models[k] == Resident;
    ApplyUnload(w, k, false);
    hide LiveHeld, QuarantineHeld, ModelsOwned, Apply;
    HeldModelRemoved(g.models, g.sequenceOwners, w.sequences, m);
    ModelQuarantined(g.models, g.pendingModels, g.modelOwners, w.models, m, PendingUnload(g.models[m], report), k);
  }

  lemma QuarantineModelIndices(g: Registry, limits: Limits, m: ModelId, report: CleanupReport)
    requires Releasable(g, m) && IndicesConsistent(g, limits)
    ensures IndicesConsistent(QuarantineModel(g, m, report), limits)
  {
    hide RequestsIndexed, SequencesIndexed, PendingIndexed, PendingSequencesIndexed;
    ModelRemovedIndices(g, limits, m);
  }

  lemma DisjointModels(g: Registry, limits: Limits, m: ModelId)
    requires ModelsConsistent(g, limits)
    ensures m in g.models ==> m !in g.pendingModels
  {
    hide SlotsConsistent;
  }

  lemma QuarantineModelKeeps(g: Registry, limits: Limits, w: World, m: ModelId, report: CleanupReport)
    requires Releasable(g, m) && Consistent(g, limits, w) && limits.maximumAttempts >= 1
    ensures Consistent(QuarantineModel(g, m, report), limits, Apply(w, PrepareUnload(g.models[m].model.key, false)))
  {
    hide ModelsConsistent, LedgerConsistent, OwnershipConsistent, Apply, IndicesConsistent, QuarantineModel;
    DisjointModels(g, limits, m);
    QuarantineModelModels(g, limits, m, report);
    QuarantineModelIndices(g, limits, m, report);
    QuarantineModelLedger(g, limits, m, report);
    QuarantineModelOwnership(g, w, m, report);
  }

  // ----- A quarantined model: one more failed attempt, or released at last -----

  ghost function RetryModel(g: Registry, m: ModelId): Registry
    requires m in g.pendingModels
  {
    var pending := g.pendingModels[m];
    g.(pendingModels := g.pendingModels[m := pending.(attempts := pending.attempts + 1)])
  }

  ghost function DropPendingModel(g: Registry, m: ModelId): Registry
    requires m in g.pendingModels
  {
    g.(pendingModels := g.pendingModels - {m},
       reserved := Minus(g.reserved, g.pendingModels[m].footprint),
       modelOwners := g.modelOwners - {g.pendingModels[m].model.key})
  }

  lemma PendingUnloadAllowed(g: Registry, limits: Limits, w: World, m: ModelId, ok: bool)
    requires OwnershipConsistent(g, w) && m in g.pendingModels && g.pendingModels[m].attempts < limits.maximumAttempts
    ensures Allowed(w, PrepareUnload(g.pendingModels[m].model.key, ok), limits.maximumAttempts)
  {
    var k := g.pendingModels[m].model.key;
    forall s | s in w.sequences && w.sequences[s].model == k
      ensures w.sequences[s].status == Destroyed
    {
      if w.sequences[s].status != Destroyed {
        HolderOf(g, w, s);
      }
    }
  }

  lemma RetryModelKeeps(g: Registry, limits: Limits, w: World, m: ModelId)
    requires Consistent(g, limits, w) && m in g.pendingModels && g.pendingModels[m].attempts < limits.maximumAttempts
    ensures Consistent(RetryModel(g, m), limits, Apply(w, PrepareUnload(g.pendingModels[m].model.key, false)))
  {
    hide LedgerConsistent, OwnershipConsistent, Apply, IndicesConsistent, ModelsConsistent;
    RetryModelModels(g, limits, m);
    RetryModelLedger(g, limits, m);
    RetryModelIndices(g, limits, m);
    DisjointModels(g, limits, m);
    RetryModelOwnership(g, w, m);
  }

  lemma RetryModelModels(g: Registry, limits: Limits, m: ModelId)
    requires ModelsConsistent(g, limits)
    requires m in g.pendingModels && g.pendingModels[m].attempts < limits.maximumAttempts
    ensures ModelsConsistent(RetryModel(g, m), limits)
  {
    hide SlotsConsistent, GenerationsConsistent;
    var next := RetryModel(g, m).pendingModels;
    assert next.Keys == g.pendingModels.Keys;
    assert |next| == |next.Keys| == |g.pendingModels.Keys| == |g.pendingModels|;
    GenerationsShrink(g.models, g.pendingModels, g.generations, g.issued, g.models, next);
  }

  lemma RetryModelIndices(g: Registry, limits: Limits, m: ModelId)
    requires IndicesConsistent(g, limits) && m in g.pendingModels
    ensures IndicesConsistent(RetryModel(g, m), limits)
  {
    hide IndicesConsistent;
    SameIndices(g, RetryModel(g, m), limits);
  }

  lemma RetryModelLedger(g: Registry, limits: Limits, m: ModelId)
    requires LedgerConsistent(g, limits) && m in g.pendingModels
    ensures LedgerConsistent(RetryModel(g, m), limits)
  {
    hide Sum, SlotBackend, FitsU64, WithinBudget;
    SumUpdate(g.pendingModels, PendingModelPart, m, RetryModel(g, m).pendingModels[m]);
  }

  lemma SameIndices(g: Registry, next: Registry, limits: Limits)
    requires IndicesConsistent(g, limits) && next.models == g.models
    requires next.requestIndex == g.requestIndex && next.sequenceIndex == g.sequenceIndex
    requires next.pendingRequestIndex == g.pendingRequestIndex && next.pendingSequenceIndex == g.pendingSequenceIndex
    requires next.activeRequests == g.activeRequests && next.pendingCleanupSequences == g.pendingCleanupSequences
    ensures IndicesConsistent(next, limits)
  {
    hide RequestsIndexed, SequencesIndexed, PendingIndexed, PendingSequencesIndexed;
  }

  lemma RetryModelOwnership(g: Registry, w: World, m: ModelId)
    requires OwnershipConsistent(g, w) && m in g.pendingModels && m !in g.models
    ensures OwnershipConsistent(RetryModel(g, m), Apply(w, PrepareUnload(g.pendingModels[m].model.key, false)))
  {
    var k := g.pendingModels[m].model.key;
    assert k in w.models && w.models[k] == UnloadFailed(g.pendingModels[m].attempts) && g.modelOwners[k] == m;
    ApplyUnload(w, k, false);
    hide LiveHeld, QuarantineHeld, ModelsOwned, Apply;
    PendingModelPut(g.models, g.pendingModels, g.modelOwners, w.models, m, RetryModel(g, m).pendingModels[m], k);
    assert g.modelOwners[k := m] == g.modelOwners;
  }

  lemma DropPendingModelKeeps(g: Registry, limits: Limits, w: World, m: ModelId)
    requires Consistent(g, limits, w) && m in g.pendingModels
    ensures Consistent(DropPendingModel(g, m), limits, Apply(w, PrepareUnload(g.pendingModels[m].model.key, true)))
    ensures AtMost(g.pendingModels[m].footprint, g.reserved)
  {
    hide LedgerConsistent, OwnershipConsistent, Apply, IndicesConsistent, ModelsConsistent, DropPendingModel;
    DropPendingModelModels(g, limits, m);
    DropPendingModelIndices(g, limits, m);
    DropPendingModelLedger(g, limits, m);
    DropPendingModelOwnership(g, w, m);
  }

  lemma DropPendingModelModels(g: Registry, limits: Limits, m: ModelId)
    requires ModelsConsistent(g, limits) && m in g.pendingModels
    ensures ModelsConsistent(DropPendingModel(g, m), limits)
  {
    hide SlotsConsistent, GenerationsConsistent, Minus;
    WithoutKey(g.pendingModels, m);
    GenerationsShrink(g.models, g.pendingModels, g.generations, g.issued, g.models, g.pendingModels - {m});
  }

  lemma DropPendingModelIndices(g: Registry, limits: Limits, m: ModelId)
    requires IndicesConsistent(g, limits) && m in g.pendingModels
    ensures IndicesConsistent(DropPendingModel(g, m), limits)
  {
    hide IndicesConsistent, Minus;
    SameIndices(g, DropPendingModel(g, m), limits);
  }

  lemma DropPendingModelLedger(g: Registry, limits: Limits, m: ModelId)
    requires LedgerConsistent(g, limits) && m in g.pendingModels
    ensures LedgerConsistent(DropPendingModel(g, m), limits)
    ensures AtMost(g.pendingModels[m].footprint, g.reserved)
  {
    hide Sum, SlotBackend, FitsU64, WithinBudget, AtMost, Minus;
    var f := g.pendingModels[m].footprint;
    SumRemove(g.pendingModels, PendingModelPart, m);
    assert BackendTotal(g.models, g.pendingModels) == Plus(BackendTotal(g.models, g.pendingModels - {m}), f);
    LedgerShrinks(BackendTotal(g.models, g.pendingModels - {m}), f, g.reservedWorkspace, limits.budget);
  }

  lemma DropPendingModelOwnership(g: Registry, w: World, m: ModelId)
    requires OwnershipConsistent(g, w) && m in g.pendingModels
    ensures OwnershipConsistent(DropPendingModel(g, m), Apply(w, PrepareUnload(g.pendingModels[m].model.key, true)))
  {
    var k := g.pendingModels[m].model.key;
    assert k in w.models;
    ApplyUnload(w, k, true);
    hide LiveHeld, QuarantineHeld, ModelsOwned, Apply;
    PendingModelDropped(g.models, g.pendingModels, g.modelOwners, w.models, m, k);
  }

  // ----- Loading a model -----

  ghost function AddModel(g: Registry, m: ModelId, slot: ModelSlot): Registry {
    g.(models := g.models[m := slot],
       generations := g.generations[m := slot.handle.generation],
       reserved := Plus(g.reserved, slot.modelFootprint),
       modelOwners := g.modelOwners[slot.model.key := m],
       issued := g.issued + {slot.handle})
  }

  // A model that was loaded but rejected, and then could not be unloaded.
  ghost function AddPendingModel(g: Registry, m: ModelId, generation: nat, pending: PendingModel): Registry {
    g.(pendingModels := g.pendingModels[m := pending],
       generations := g.generations[m := generation],
       reserved := Plus(g.reserved, pending.footprint),
       modelOwners := g.modelOwners[pending.model.key := m])
  }

  ghost function NextGeneration(g: Registry, m: ModelId): nat {
    if m in g.generations then g.generations[m] + 1 else 1
  }

  ghost predicate RoomForModel(g: Registry, limits: Limits, m: ModelId, f: Footprint) {
    && m !in g.models && m !in g.pendingModels
    && |g.models| + |g.pendingModels| < limits.maximumModels
    && FitsU64(Plus(g.reserved, f)) && WithinBudget(Plus(g.reserved, f), limits.budget)
  }

  ghost predicate FreshSlot(m: ModelId, slot: ModelSlot) {
    && slot.handle.id == m && slot.lifecycle == Lifecycle.State.Ready
    && slot.requests == map[] && slot.pendingSequences == map[] && !slot.poisoned
    && slot.reserved == slot.modelFootprint && FitsU64(slot.modelFootprint)
  }

  lemma AddModelKeeps(g: Registry, limits: Limits, w: World, m: ModelId, slot: ModelSlot)
    requires Consistent(g, limits, w) && RoomForModel(g, limits, m, slot.modelFootprint)
    requires FreshSlot(m, slot) && slot.handle.generation == NextGeneration(g, m) && slot.model.key !in w.models
    ensures Consistent(AddModel(g, m, slot), limits, Apply(w, Loaded(slot.model.key)))
    ensures slot.handle !in g.issued
  {
    hide LedgerConsistent, OwnershipConsistent, Apply, IndicesConsistent, ModelsConsistent, AddModel, RoomForModel, FreshSlot, NextGeneration;
    AddModelModels(g, limits, m, slot);
    AddModelIndices(g, limits, m, slot);
    AddModelLedger(g, limits, m, slot);
    AddModelOwnership(g, limits, w, m, slot);
  }

  lemma AddModelModels(g: Registry, limits: Limits, m: ModelId, slot: ModelSlot)
    requires ModelsConsistent(g, limits) && RoomForModel(g, limits, m, slot.modelFootprint)
    requires FreshSlot(m, slot) && slot.handle.generation == NextGeneration(g, m)
    ensures ModelsConsistent(AddModel(g, m, slot), limits)
    ensures slot.handle !in g.issued
  {
    hide SlotShaped, SlotTotal, SlotBackend, FitsU64, WithinBudget, GenerationsConsistent, SlotsConsistent;
    EmptySlot(slot);
    FreshSlotShaped(m, slot, limits);
    WithNewKey(g.models, m, slot);
    SlotsPut(g.models, limits, m, slot);
    GenerationsModelAdded(g.models, g.pendingModels, g.generations, g.issued, m, slot);
  }

  lemma FreshSlotShaped(m: ModelId, slot: ModelSlot, limits: Limits)
    requires FreshSlot(m, slot)
    ensures SlotShaped(m, slot, limits)
  {
  }

  lemma AddModelIndices(g: Registry, limits: Limits, m: ModelId, slot: ModelSlot)
    requires IndicesConsistent(g, limits) && RoomForModel(g, limits, m, slot.modelFootprint) && FreshSlot(m, slot)
    ensures IndicesConsistent(AddModel(g, m, slot), limits)
  {
    hide RequestsIndexed, SequencesIndexed, PendingIndexed, PendingSequencesIndexed, FitsU64, WithinBudget;
    ActiveModelAdded(g.models, g.requestIndex, g.sequenceIndex, m, slot);
    QuarantineModelAdded(g.models, g.pendingRequestIndex, g.pendingSequenceIndex, m, slot);
  }

  lemma AddModelLedger(g: Registry, limits: Limits, m: ModelId, slot: ModelSlot)
    requires LedgerConsistent(g, limits) && RoomForModel(g, limits, m, slot.modelFootprint) && FreshSlot(m, slot)
    ensures LedgerConsistent(AddModel(g, m, slot), limits)
  {
    hide Sum, SlotBackend, FitsU64, WithinBudget;
    EmptySlot(slot);
    SumInsert(g.models, SlotBackend, m, slot);
  }

  lemma AddModelOwnership(g: Registry, limits: Limits, w: World, m: ModelId, slot: ModelSlot)
    requires OwnershipConsistent(g, w) && RoomForModel(g, limits, m, slot.modelFootprint) && FreshSlot(m, slot)
    requires slot.model.key !in w.models
    ensures OwnershipConsistent(AddModel(g, m, slot), Apply(w, Loaded(slot.model.key)))
  {
    hide LiveHeld, QuarantineHeld, ModelsOwned, FitsU64, WithinBudget;
    HeldModelAdded(g.models, g.sequenceOwners, w.sequences, m, slot);
    ModelAdded(g.models, g.pendingModels, g.modelOwners, w.models, m, slot, slot.model.key);
  }

  lemma AddPendingModelKeeps(g: Registry, limits: Limits, w: World, m: ModelId, pending: PendingModel)
    requires Consistent(g, limits, w) && RoomForModel(g, limits, m, pending.footprint) && limits.maximumAttempts >= 1
    requires pending.attempts == 1 && pending.model.key !in w.models
    ensures Consistent(AddPendingModel(g, m, NextGeneration(g, m), pending), limits,
                       Apply(Apply(w, Loaded(pending.model.key)), PrepareUnload(pending.model.key, false)))
  {
    hide LedgerConsistent, OwnershipConsistent, Apply, IndicesConsistent, ModelsConsistent, AddPendingModel, RoomForModel, NextGeneration;
    AddPendingModelModels(g, limits, m, pending);
    AddPendingModelIndices(g, limits, m, pending);
    AddPendingModelLedger(g, limits, m, pending);
    AddPendingModelOwnership(g, limits, w, m, pending);
  }

  lemma AddPendingModelModels(g: Registry, limits: Limits, m: ModelId, pending: PendingModel)
    requires ModelsConsistent(g, limits) && RoomForModel(g, limits, m, pending.footprint)
    requires pending.attempts == 1 && limits.maximumAttempts >= 1
    ensures ModelsConsistent(AddPendingModel(g, m, NextGeneration(g, m), pending), limits)
  {
    hide SlotsConsistent, FitsU64, WithinBudget, GenerationsConsistent;
    WithNewKey(g.pendingModels, m, pending);
    GenerationsPendingAdded(g.models, g.pendingModels, g.generations, g.issued, m, pending);
  }

  lemma AddPendingModelIndices(g: Registry, limits: Limits, m: ModelId, pending: PendingModel)
    requires IndicesConsistent(g, limits)
    ensures IndicesConsistent(AddPendingModel(g, m, NextGeneration(g, m), pending), limits)
  {
    hide RequestsIndexed, SequencesIndexed, PendingIndexed, PendingSequencesIndexed;
  }

  lemma AddPendingModelLedger(g: Registry, limits: Limits, m: ModelId, pending: PendingModel)
    requires LedgerConsistent(g, limits) && RoomForModel(g, limits, m, pending.footprint)
    ensures LedgerConsistent(AddPendingModel(g, m, NextGeneration(g, m), pending), limits)
  {
    hide Sum, SlotBackend, FitsU64, WithinBudget;
    SumInsert(g.pendingModels, PendingModelPart, m, pending);
  }

  lemma AddPendingModelOwnership(g: Registry, limits: Limits, w: World, m: ModelId, pending: PendingModel)
    requires OwnershipConsistent(g, w) && RoomForModel(g, limits, m, pending.footprint)
    requires pending.attempts == 1 && pending.model.key !in w.models
    ensures OwnershipConsistent(AddPendingModel(g, m, NextGeneration(g, m), pending),
                                Apply(Apply(w, Loaded(pending.model.key)), PrepareUnload(pending.model.key, false)))
  {
    hide LiveHeld, QuarantineHeld, ModelsOwned, FitsU64, WithinBudget;
    var k := pending.model.key;
    PendingModelPut(g.models, g.pendingModels, g.modelOwners, w.models, m, pending, k);
    var loaded := Apply(w, Loaded(k));
    ApplyUnload(loaded, k, false);
    assert loaded.models[k := UnloadFailed(1)] == w.models[k := UnloadFailed(1)];
  }

  // A rejected model that was unloaded at once leaves the registry as it was.
  lemma RejectedModelKeeps(g: Registry, limits: Limits, w: World, k: Key)
    requires Consistent(g, limits, w) && k !in w.models
    ensures Consistent(g, limits, Apply(Apply(w, Loaded(k)), PrepareUnload(k, true)))
  {
    hide LedgerConsistent, IndicesConsistent, ModelsConsistent, LiveHeld, QuarantineHeld, ModelsOwned;
    ModelsAfterRejected(g.models, g.pendingModels, g.modelOwners, w.models, k);
    var loaded := Apply(w, Loaded(k));
    ApplyUnload(loaded, k, true);
    assert loaded.models[k := Unloaded] == w.models[k := Unloaded];
  }

  // A freshly loaded model can be unloaded: it has no sequences yet.
  lemma FreshUnloadAllowed(g: Registry, w: World, k: Key, ok: bool, maximum: nat)
    requires OwnershipConsistent(g, w) && k !in w.models && maximum >= 1
    requires forall s :: s in w.sequences ==> w.sequences[s].model in w.models
    ensures Allowed(Apply(w, Loaded(k)), PrepareUnload(k, ok), maximum)
  {
  }

  // ----- Transitions that move no resource -----

  // A lifecycle step that keeps the active count (unload requests, drain expiry), or bookkeeping.
  ghost function Relabel(g: Registry, m: ModelId, lifecycle: State, cancelled: nat): Registry
    requires m in g.models
  {
    g.(models := g.models[m := g.models[m].(lifecycle := lifecycle, cancelledDuringUnload := cancelled)])
  }

  lemma RelabelKeeps(g: Registry, limits: Limits, w: World, m: ModelId, lifecycle: State, cancelled: nat)
    requires Consistent(g, limits, w) && m in g.models
    requires lifecycle.WellFormed() && lifecycle.ActiveCount() == g.models[m].lifecycle.ActiveCount()
    requires lifecycle.Accepting() || lifecycle.Draining? || lifecycle.Cancelling? || lifecycle.Unloading?
    ensures Consistent(Relabel(g, m, lifecycle, cancelled), limits, w)
  {
    hide LedgerConsistent, OwnershipConsistent, IndicesConsistent, ModelsConsistent, SlotShaped, SlotTotal, SlotBackend;
    var slot := g.models[m].(lifecycle := lifecycle, cancelledDuringUnload := cancelled);
    SlotAt(g, limits, m);
    RelabelledSlot(m, g.models[m], slot, limits);
    SlotReplacedModels(g, Relabel(g, m, lifecycle, cancelled), limits, m, slot);
    SameHoldings(g, limits, w, m, slot);
  }

  lemma RelabelledSlot(m: ModelId, before: ModelSlot, slot: ModelSlot, limits: Limits)
    requires SlotShaped(m, before, limits) && before.reserved == SlotTotal(before)
    requires slot == before.(lifecycle := slot.lifecycle, cancelledDuringUnload := slot.cancelledDuringUnload)
    requires slot.lifecycle.WellFormed() && slot.lifecycle.ActiveCount() == before.lifecycle.ActiveCount()
    requires slot.lifecycle.Accepting() || slot.lifecycle.Draining? || slot.lifecycle.Cancelling? || slot.lifecycle.Unloading?
    ensures SlotShaped(m, slot, limits) && slot.reserved == SlotTotal(slot) && SlotBackend(slot) == SlotBackend(before)
  {
    hide Sum;
  }

  // Indices, ledger and ownership only look at what a slot holds.
  lemma SameHoldings(g: Registry, limits: Limits, w: World, m: ModelId, slot: ModelSlot)
    requires IndicesConsistent(g, limits) && LedgerConsistent(g, limits) && OwnershipConsistent(g, w)
    requires m in g.models && SlotBackend(slot) == SlotBackend(g.models[m])
    requires SameRequests(slot, g.models[m]) && slot.pendingSequences == g.models[m].pendingSequences
    requires slot.model.key == g.models[m].model.key
    ensures var next := g.(models := g.models[m := slot]);
            IndicesConsistent(next, limits) && LedgerConsistent(next, limits) && OwnershipConsistent(next, w)
  {
    hide RequestsIndexed, SequencesIndexed, PendingIndexed, PendingSequencesIndexed, SlotBackend, Sum, BackendTotal,
         FitsU64, WithinBudget, LiveHeld, QuarantineHeld, ModelsOwned, SameRequests;
    ActiveKept(g.models, g.requestIndex, g.sequenceIndex, m, slot);
    QuarantineKept(g.models, g.pendingRequestIndex, g.pendingSequenceIndex, m, slot);
    SlotShrinksTotal(g.models, g.pendingModels, m, slot, Zero());
    LiveSame(g.models, g.sequenceOwners, w.sequences, m, slot);
    QuarantinedSame(g.models, g.sequenceOwners, w.sequences, m, slot);
    ModelKept(g.models, g.pendingModels, g.modelOwners, w.models, m, slot);
  }

  // A backend execution replaces one request's sequence and usage.
  ghost function UseSequence(g: Registry, r: RequestId, sequence: Sequence, usage: Usage): Registry
    requires HasRequest(g, r)
  {
    var m := g.requestIndex[r];
    g.(models := g.models[m := SlotUsing(g.models[m], r, sequence, usage)])
  }

  ghost function SlotUsing(slot: ModelSlot, r: RequestId, sequence: Sequence, usage: Usage): ModelSlot
    requires r in slot.requests
  {
    slot.(requests := slot.requests[r := slot.requests[r].(sequence := sequence, usage := usage)])
  }

  lemma UseSequenceKeeps(g: Registry, limits: Limits, w: World, r: RequestId, sequence: Sequence, usage: Usage)
    requires Consistent(g, limits, w) && HasRequest(g, r)
    requires sequence.id == RequestOf(g, r).sequence.id && sequence.key == RequestOf(g, r).sequence.key
    ensures Consistent(UseSequence(g, r, sequence, usage), limits, w)
  {
    hide LedgerConsistent, OwnershipConsistent, IndicesConsistent, ModelsConsistent, SlotShaped, SlotTotal, SlotBackend;
    var m := g.requestIndex[r];
    var slot := SlotUsing(g.models[m], r, sequence, usage);
    SlotAt(g, limits, m);
    UsingSlot(m, g.models[m], r, sequence, usage, limits);
    SlotReplacedModels(g, UseSequence(g, r, sequence, usage), limits, m, slot);
    SameHoldings(g, limits, w, m, slot);
  }

  lemma UsingSlot(m: ModelId, slot: ModelSlot, r: RequestId, sequence: Sequence, usage: Usage, limits: Limits)
    requires SlotShaped(m, slot, limits) && slot.reserved == SlotTotal(slot) && r in slot.requests
    ensures var next := SlotUsing(slot, r, sequence, usage);
            SlotShaped(m, next, limits) && next.reserved == SlotTotal(next) && SlotBackend(next) == SlotBackend(slot)
  {
    hide Sum;
    var next := SlotUsing(slot, r, sequence, usage);
    assert next.requests.Keys == slot.requests.Keys;
    assert |next.requests| == |next.requests.Keys| == |slot.requests.Keys| == |slot.requests|;
    SumUpdate(slot.requests, WholeRequest, r, next.requests[r]);
    SumUpdate(slot.requests, BackendPart, r, next.requests[r]);
  }

  // Host workspace handed back by the scheduler.
  ghost function ReleaseWorkspace(g: Registry, r: RequestId): Registry
    requires r in g.workspaces && g.generationWorkspaces > 0
  {
    g.(workspaces := g.workspaces - {r},
       generationWorkspaces := g.generationWorkspaces - 1,
       reservedWorkspace := Minus(g.reservedWorkspace, g.workspaces[r]),
       reserved := Minus(g.reserved, g.workspaces[r]))
  }

  lemma ReleaseWorkspaceLedger(g: Registry, limits: Limits, r: RequestId)
    requires LedgerConsistent(g, limits) && r in g.workspaces
    ensures g.generationWorkspaces > 0
    ensures LedgerConsistent(ReleaseWorkspace(g, r), limits)
    ensures AtMost(g.workspaces[r], g.reservedWorkspace) && AtMost(g.workspaces[r], g.reserved)
  {
    hide BackendTotal, Sum, FitsU64, WithinBudget;
    SumRemove(g.workspaces, Identity, r);
    WithoutKey(g.workspaces, r);
    var total, rest, f := BackendTotal(g.models, g.pendingModels), Sum(g.workspaces - {r}, Identity), g.workspaces[r];
    assert g.reserved == Plus(Plus(total, f), rest);
    LedgerShrinks(total, f, rest, limits.budget);
  }

  lemma ReleaseWorkspaceKeeps(g: Registry, limits: Limits, w: World, r: RequestId)
    requires Consistent(g, limits, w) && r in g.workspaces
    ensures g.generationWorkspaces > 0
    ensures Consistent(ReleaseWorkspace(g, r), limits, w)
    ensures AtMost(g.workspaces[r], g.reservedWorkspace) && AtMost(g.workspaces[r], g.reserved)
  {
    hide SlotsConsistent, OwnersExact, LiveHeld, QuarantineHeld, ModelsOwned, LedgerConsistent, Minus, AtMost,
         RequestsIndexed, SequencesIndexed, PendingIndexed, PendingSequencesIndexed;
    ReleaseWorkspaceLedger(g, limits, r);
  }
}
