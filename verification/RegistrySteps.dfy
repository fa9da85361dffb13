// The registry's elementary transitions as functions of its value, and the proof
// that each keeps every consistency condition, whatever the backend answered.
module RegistrySteps {
  import opened Footprints
  import opened Lifecycle
  import opened RuntimeTypes
  import opened BackendProtocol
  import opened Registry
  import opened RegistryIndices

  ghost predicate HasRequest(g: Registry, r: RequestId) {
    && r in g.requestIndex
    && g.requestIndex[r] in g.models
    && r in g.models[g.requestIndex[r]].requests
    && g.models[g.requestIndex[r]].lifecycle.WellFormed()
    && g.activeRequests > 0
  }

  ghost function SlotOf(g: Registry, r: RequestId): ModelSlot
    requires HasRequest(g, r)
  {
    g.models[g.requestIndex[r]]
  }

  ghost function RequestOf(g: Registry, r: RequestId): RequestSlot
    requires HasRequest(g, r)
  {
    SlotOf(g, r).requests[r]
  }

  ghost function SlotWithoutRequest(slot: ModelSlot, r: RequestId): ModelSlot
    requires r in slot.requests && slot.lifecycle.WellFormed()
  {
    slot.(requests := slot.requests - {r},
          reserved := Minus(slot.reserved, WholeRequest(slot.requests[r])),
          lifecycle := AfterFinish(slot.lifecycle).next)
  }

  // An active request whose sequence was destroyed.
  ghost function DropRequest(g: Registry, r: RequestId): Registry
    requires HasRequest(g, r)
  {
    var request := RequestOf(g, r);
    g.(models := g.models[g.requestIndex[r] := SlotWithoutRequest(SlotOf(g, r), r)],
       requestIndex := g.requestIndex - {r},
       sequenceIndex := g.sequenceIndex - {request.sequence.id},
       activeRequests := g.activeRequests - 1,
       reserved := Minus(g.reserved, request.backendFootprint),
       sequenceOwners := g.sequenceOwners - {request.sequence.key})
  }

  lemma WithoutKey<K, V>(m: map<K, V>, k: K)
    requires k in m
    ensures |m - {k}| == |m| - 1
  {
    assert (m - {k}).Keys == m.Keys - {k};
    assert |m.Keys - {k}| == |m.Keys| - 1;
  }

  lemma HasRequestWhenIndexed(g: Registry, limits: Limits, r: RequestId)
    requires ModelsConsistent(g, limits) && IndicesConsistent(g, limits)
    requires r in g.requestIndex
    ensures HasRequest(g, r)
  {
    hide PendingIndexed, SequencesIndexed, PendingSequencesIndexed;
    assert g.requestIndex[r] in g.models;
    assert SlotShaped(g.requestIndex[r], g.models[g.requestIndex[r]], limits);
    WithoutKey(g.requestIndex, r);
  }

  lemma DropRequestSlot(m: ModelId, slot: ModelSlot, r: RequestId, limits: Limits)
    requires SlotShaped(m, slot, limits) && slot.reserved == SlotTotal(slot)
    requires r in slot.requests
    ensures SlotShaped(m, SlotWithoutRequest(slot, r), limits)
    ensures SlotWithoutRequest(slot, r).reserved == SlotTotal(SlotWithoutRequest(slot, r))
    ensures AtMost(WholeRequest(slot.requests[r]), slot.reserved) && FitsU64(WholeRequest(slot.requests[r]))
    ensures SlotBackend(slot) == Plus(SlotBackend(SlotWithoutRequest(slot, r)), slot.requests[r].backendFootprint)
    ensures AfterFinish(slot.lifecycle).result.Ok?
  {
    hide Sum;
    SumRemove(slot.requests, WholeRequest, r);
    SumRemove(slot.requests, BackendPart, r);
    WithoutKey(slot.requests, r);
    FinishIsExact(slot.lifecycle);
  }

  lemma SlotAt(g: Registry, limits: Limits, m: ModelId)
    requires ModelsConsistent(g, limits)
    requires m in g.models
    ensures SlotShaped(m, g.models[m], limits) && g.models[m].reserved == SlotTotal(g.models[m])
  {
    hide SlotShaped, SlotTotal;
  }

  // ----- Replacing one slot -----

  // Model-level conditions follow when a slot is replaced by a consistent one with the same handle.
  lemma SlotReplacedModels(g: Registry, g': Registry, limits: Limits, m: ModelId, slot: ModelSlot)
    requires ModelsConsistent(g, limits)
    requires m in g.models && SlotShaped(m, slot, limits) && slot.reserved == SlotTotal(slot)
    requires slot.handle == g.models[m].handle
    requires g'.models == g.models[m := slot] && g'.pendingModels == g.pendingModels
    requires g'.generations == g.generations && g'.issued == g.issued
    ensures ModelsConsistent(g', limits)
  {
    hide SlotShaped, SlotTotal, SlotsConsistent, GenerationsConsistent;
    SlotsPut(g.models, limits, m, slot);
    GenerationsKept(g.models, g.pendingModels, g.generations, g.issued, m, slot);
  }

  // The global sum moves exactly as the one slot does.
  lemma SlotShrinksTotal(models: Models, pendingModels: map<ModelId, PendingModel>, m: ModelId, slot: ModelSlot, f: Footprint)
    requires m in models && SlotBackend(models[m]) == Plus(SlotBackend(slot), f)
    ensures BackendTotal(models, pendingModels) == Plus(BackendTotal(models[m := slot], pendingModels), f)
  {
    hide SlotBackend, Sum;
    SumUpdate(models, SlotBackend, m, slot);
  }

  lemma SlotGrowsTotal(models: Models, pendingModels: map<ModelId, PendingModel>, m: ModelId, slot: ModelSlot, f: Footprint)
    requires m in models && SlotBackend(slot) == Plus(SlotBackend(models[m]), f)
    ensures BackendTotal(models[m := slot], pendingModels) == Plus(BackendTotal(models, pendingModels), f)
  {
    hide SlotBackend, Sum;
    SumUpdate(models, SlotBackend, m, slot);
  }

  // Releasing a part of the ledger: the subtraction cannot underflow and stays within budget.
  lemma LedgerShrinks(total: Footprint, f: Footprint, workspace: Footprint, budget: Budget)
    requires FitsU64(Plus(Plus(total, f), workspace)) && WithinBudget(Plus(Plus(total, f), workspace), budget)
    ensures var before := Plus(Plus(total, f), workspace);
            && AtMost(f, before)
            && Minus(before, f) == Plus(total, workspace)
            && FitsU64(Plus(total, workspace)) && WithinBudget(Plus(total, workspace), budget)
  {
  }

  // ----- An active request whose sequence was destroyed -----

  lemma DropRequestModels(g: Registry, limits: Limits, r: RequestId)
    requires HasRequest(g, r) && ModelsConsistent(g, limits)
    ensures ModelsConsistent(DropRequest(g, r), limits)
  {
    hide SlotShaped, SlotTotal, ModelsConsistent, Minus;
    var m := g.requestIndex[r];
    SlotAt(g, limits, m);
    DropRequestSlot(m, g.models[m], r, limits);
    SlotReplacedModels(g, DropRequest(g, r), limits, m, SlotWithoutRequest(g.models[m], r));
  }

  lemma DropRequestIndices(g: Registry, limits: Limits, r: RequestId)
    requires HasRequest(g, r) && IndicesConsistent(g, limits)
    ensures IndicesConsistent(DropRequest(g, r), limits)
  {
    hide RequestsIndexed, SequencesIndexed, PendingIndexed, PendingSequencesIndexed;
    var m := g.requestIndex[r];
    var slot := SlotWithoutRequest(g.models[m], r);
    WithoutKey(g.requestIndex, r);
    ActiveRemoved(g.models, g.requestIndex, g.sequenceIndex, m, slot, r);
    QuarantineKept(g.models, g.pendingRequestIndex, g.pendingSequenceIndex, m, slot);
  }

  lemma DropRequestLedger(g: Registry, limits: Limits, r: RequestId)
    requires HasRequest(g, r) && LedgerConsistent(g, limits) && ModelsConsistent(g, limits)
    ensures LedgerConsistent(DropRequest(g, r), limits)
    ensures AtMost(RequestOf(g, r).backendFootprint, g.reserved)
  {
    hide Sum, SlotShaped, ModelsConsistent, SlotTotal, SlotBackend, SlotWithoutRequest, Plus, Minus, BackendTotal, FitsU64, WithinBudget, AtMost;
    var m, request := g.requestIndex[r], RequestOf(g, r);
    var slot := SlotWithoutRequest(g.models[m], r);
    SlotAt(g, limits, m);
    DropRequestSlot(m, g.models[m], r, limits);
    SlotShrinksTotal(g.models, g.pendingModels, m, slot, request.backendFootprint);
    LedgerShrinks(BackendTotal(g.models[m := slot], g.pendingModels), request.backendFootprint, g.reservedWorkspace, limits.budget);
  }

  lemma DropRequestOwnership(g: Registry, w: World, r: RequestId)
    requires HasRequest(g, r) && OwnershipConsistent(g, w)
    ensures OwnershipConsistent(DropRequest(g, r), Apply(w, Destroy(RequestOf(g, r).sequence.key, true)))
  {
    hide LiveHeld, QuarantineHeld, ModelsOwned, OnlyChanges, Apply;
    var m, k := g.requestIndex[r], RequestOf(g, r).sequence.key;
    var slot := SlotWithoutRequest(g.models[m], r);
    LiveRecord(g.models, g.sequenceOwners, w.sequences, m, r);
    var records := w.sequences[k := AfterDestroy(w.sequences[k], true)];
    RecordReleased(k, g.sequenceOwners, w.sequences, AfterDestroy(w.sequences[k], true));
    ApplyDestroy(w, k, true);
    LiveRemoved(g.models, g.sequenceOwners, g.sequenceOwners - {k}, w.sequences, records, m, slot, r, k);
    QuarantinedKept(g.models, g.sequenceOwners, g.sequenceOwners - {k}, w.sequences, records, m, slot, k);
    ModelKept(g.models, g.pendingModels, g.modelOwners, w.models, m, slot);
  }

  lemma DropRequestKeeps(g: Registry, limits: Limits, w: World, r: RequestId)
    requires HasRequest(g, r) && Consistent(g, limits, w)
    ensures Consistent(DropRequest(g, r), limits, Apply(w, Destroy(RequestOf(g, r).sequence.key, true)))
  {
    hide ModelsConsistent, IndicesConsistent, LedgerConsistent, OwnershipConsistent, Apply, DropRequest;
    DropRequestModels(g, limits, r);
    DropRequestIndices(g, limits, r);
    DropRequestLedger(g, limits, r);
    DropRequestOwnership(g, w, r);
  }

  // ----- An active request whose sequence could not be destroyed -----

  ghost function Quarantined(request: RequestSlot, r: RequestId, report: CleanupReport): PendingSequence {
    PendingSequence(r, request.sequence.id, request.sequence, request.backendFootprint, report, 1)
  }

  ghost function SlotWithQuarantined(slot: ModelSlot, r: RequestId, report: CleanupReport): ModelSlot
    requires r in slot.requests && slot.lifecycle.WellFormed()
  {
    slot.(requests := slot.requests - {r},
          pendingSequences := slot.pendingSequences[r := Quarantined(slot.requests[r], r, report)],
          reserved := Minus(slot.reserved, slot.requests[r].workspaceFootprint),
          poisoned := true,
          lifecycle := AfterFinish(slot.lifecycle).next)
  }

  ghost function QuarantineRequest(g: Registry, r: RequestId, report: CleanupReport): Registry
    requires HasRequest(g, r)
  {
    var request := RequestOf(g, r);
    g.(models := g.models[g.requestIndex[r] := SlotWithQuarantined(SlotOf(g, r), r, report)],
       requestIndex := g.requestIndex - {r},
       sequenceIndex := g.sequenceIndex - {request.sequence.id},
       pendingRequestIndex := g.pendingRequestIndex[r := g.requestIndex[r]],
       pendingSequenceIndex := g.pendingSequenceIndex[request.sequence.id := r],
       activeRequests := g.activeRequests - 1,
       pendingCleanupSequences := g.pendingCleanupSequences + 1)
  }

  lemma QuarantineRequestSlot(m: ModelId, slot: ModelSlot, r: RequestId, report: CleanupReport, limits: Limits)
    requires SlotShaped(m, slot, limits) && slot.reserved == SlotTotal(slot) && limits.maximumAttempts >= 1
    requires r in slot.requests
    ensures SlotShaped(m, SlotWithQuarantined(slot, r, report), limits)
    ensures SlotWithQuarantined(slot, r, report).reserved == SlotTotal(SlotWithQuarantined(slot, r, report))
    ensures AtMost(slot.requests[r].workspaceFootprint, slot.reserved)
    ensures SlotBackend(slot) == SlotBackend(SlotWithQuarantined(slot, r, report))
    ensures AfterFinish(slot.lifecycle).result.Ok?
  {
    hide Sum, SlotTotal, SlotBackend, SlotWithQuarantined, Minus, AtMost, AfterFinish;
    QuarantineRequestSums(slot, r, report);
    QuarantineRequestShape(m, slot, r, report, limits);
  }

  // The sums move by exactly the workspace, which therefore cannot underflow.
  lemma QuarantineRequestSums(slot: ModelSlot, r: RequestId, report: CleanupReport)
    requires slot.reserved == SlotTotal(slot) && slot.lifecycle.WellFormed()
    requires r in slot.requests && r !in slot.pendingSequences
    ensures SlotWithQuarantined(slot, r, report).reserved == SlotTotal(SlotWithQuarantined(slot, r, report))
    ensures AtMost(slot.requests[r].workspaceFootprint, slot.reserved)
    ensures SlotBackend(slot) == SlotBackend(SlotWithQuarantined(slot, r, report))
  {
    hide Sum, AfterFinish;
    SumRemove(slot.requests, WholeRequest, r);
    SumRemove(slot.requests, BackendPart, r);
    SumInsert(slot.pendingSequences, PendingPart, r, Quarantined(slot.requests[r], r, report));
  }

  lemma QuarantineRequestShape(m: ModelId, slot: ModelSlot, r: RequestId, report: CleanupReport, limits: Limits)
    requires SlotShaped(m, slot, limits) && limits.maximumAttempts >= 1
    requires r in slot.requests
    ensures SlotShaped(m, SlotWithQuarantined(slot, r, report), limits)
    ensures AfterFinish(slot.lifecycle).result.Ok?
  {
    WithoutKey(slot.requests, r);
    FinishIsExact(slot.lifecycle);
  }

  lemma QuarantineRequestModels(g: Registry, limits: Limits, r: RequestId, report: CleanupReport)
    requires HasRequest(g, r) && ModelsConsistent(g, limits) && limits.maximumAttempts >= 1
    ensures ModelsConsistent(QuarantineRequest(g, r, report), limits)
  {
    hide SlotShaped, SlotTotal, ModelsConsistent, Minus;
    var m := g.requestIndex[r];
    SlotAt(g, limits, m);
    QuarantineRequestSlot(m, g.models[m], r, report, limits);
    SlotReplacedModels(g, QuarantineRequest(g, r, report), limits, m, SlotWithQuarantined(g.models[m], r, report));
  }

  lemma QuarantineRequestIndices(g: Registry, limits: Limits, r: RequestId, report: CleanupReport)
    requires HasRequest(g, r) && IndicesConsistent(g, limits)
    ensures IndicesConsistent(QuarantineRequest(g, r, report), limits)
  {
    hide RequestsIndexed, SequencesIndexed, PendingIndexed, PendingSequencesIndexed;
    var m, sid := g.requestIndex[r], RequestOf(g, r).sequence.id;
    var slot := SlotWithQuarantined(g.models[m], r, report);
    WithoutKey(g.requestIndex, r);
    ActiveRemoved(g.models, g.requestIndex, g.sequenceIndex, m, slot, r);
    QuarantineAdded(g.models, g.pendingRequestIndex, g.pendingSequenceIndex, m, slot, r, slot.pendingSequences[r]);
    WithNewKey(g.pendingRequestIndex, r, m);
  }

  lemma WithNewKey<K, V>(m: map<K, V>, k: K, v: V)
    requires k !in m
    ensures |m[k := v]| == |m| + 1
  {
    assert m[k := v].Keys == m.Keys + {k};
  }

  lemma QuarantineRequestLedger(g: Registry, limits: Limits, r: RequestId, report: CleanupReport)
    requires HasRequest(g, r) && LedgerConsistent(g, limits) && ModelsConsistent(g, limits) && limits.maximumAttempts >= 1
    ensures LedgerConsistent(QuarantineRequest(g, r, report), limits)
  {
    hide Sum, SlotShaped, ModelsConsistent, SlotTotal, SlotBackend, SlotWithQuarantined, BackendTotal, FitsU64, WithinBudget;
    var m := g.requestIndex[r];
    var slot := SlotWithQuarantined(g.models[m], r, report);
    SlotAt(g, limits, m);
    QuarantineRequestSlot(m, g.models[m], r, report, limits);
    SlotShrinksTotal(g.models, g.pendingModels, m, slot, Zero());
  }

  lemma QuarantineRequestOwnership(g: Registry, w: World, r: RequestId, report: CleanupReport)
    requires HasRequest(g, r) && OwnershipConsistent(g, w) && r !in SlotOf(g, r).pendingSequences
    ensures OwnershipConsistent(QuarantineRequest(g, r, report), Apply(w, Destroy(RequestOf(g, r).sequence.key, false)))
  {
    hide LiveHeld, QuarantineHeld, ModelsOwned, OnlyChanges, Apply;
    var m, k := g.requestIndex[r], RequestOf(g, r).sequence.key;
    var slot := SlotWithQuarantined(g.models[m], r, report);
    LiveRecord(g.models, g.sequenceOwners, w.sequences, m, r);
    var records := w.sequences[k := AfterDestroy(w.sequences[k], false)];
    RecordChanged(k, g.sequenceOwners, w.sequences, AfterDestroy(w.sequences[k], false));
    ApplyDestroy(w, k, false);
    LiveRemoved(g.models, g.sequenceOwners, g.sequenceOwners, w.sequences, records, m, slot, r, k);
    QuarantinedAdded(g.models, g.sequenceOwners, g.sequenceOwners, w.sequences, records, m, slot, r, slot.pendingSequences[r], k);
    ModelKept(g.models, g.pendingModels, g.modelOwners, w.models, m, slot);
  }

  lemma QuarantineRequestKeeps(g: Registry, limits: Limits, w: World, r: RequestId, report: CleanupReport)
    requires HasRequest(g, r) && Consistent(g, limits, w) && limits.maximumAttempts >= 1
    ensures Consistent(QuarantineRequest(g, r, report), limits, Apply(w, Destroy(RequestOf(g, r).sequence.key, false)))
  {
    hide ModelsConsistent, IndicesConsistent, LedgerConsistent, OwnershipConsistent, Apply, QuarantineRequest;
    QuarantineRequestModels(g, limits, r, report);
    QuarantineRequestIndices(g, limits, r, report);
    QuarantineRequestLedger(g, limits, r, report);
    NotYetQuarantined(g, limits, r);
    QuarantineRequestOwnership(g, w, r, report);
  }

  lemma NotYetQuarantined(g: Registry, limits: Limits, r: RequestId)
    requires HasRequest(g, r) && ModelsConsistent(g, limits)
    ensures r !in SlotOf(g, r).pendingSequences
  {
    hide ModelsConsistent, SlotTotal;
    SlotAt(g, limits, g.requestIndex[r]);
  }

  // ----- A quarantined sequence: one more failed attempt, or released at last -----

  ghost predicate HasQuarantined(g: Registry, m: ModelId, r: RequestId) {
    && m in g.models
    && r in g.models[m].pendingSequences
    && g.pendingCleanupSequences > 0
  }

  ghost function SlotRetried(slot: ModelSlot, r: RequestId): ModelSlot
    requires r in slot.pendingSequences
  {
    var pending := slot.pendingSequences[r];
    slot.(pendingSequences := slot.pendingSequences[r := pending.(attempts := pending.attempts + 1)])
  }

  ghost function RetrySequence(g: Registry, m: ModelId, r: RequestId): Registry
    requires HasQuarantined(g, m, r)
  {
    g.(models := g.models[m := SlotRetried(g.models[m], r)])
  }

  ghost function SlotWithoutQuarantined(slot: ModelSlot, r: RequestId): ModelSlot
    requires r in slot.pendingSequences
  {
    slot.(pendingSequences := slot.pendingSequences - {r},
          reserved := Minus(slot.reserved, slot.pendingSequences[r].footprint),
          poisoned := slot.pendingSequences - {r} != map[])
  }

  ghost function DropQuarantined(g: Registry, m: ModelId, r: RequestId): Registry
    requires HasQuarantined(g, m, r)
  {
    var pending := g.models[m].pendingSequences[r];
    g.(models := g.models[m := SlotWithoutQuarantined(g.models[m], r)],
       pendingRequestIndex := g.pendingRequestIndex - {r},
       pendingSequenceIndex := g.pendingSequenceIndex - {pending.sequenceId},
       pendingCleanupSequences := g.pendingCleanupSequences - 1,
       reserved := Minus(g.reserved, pending.footprint),
       sequenceOwners := g.sequenceOwners - {pending.sequence.key})
  }

  lemma HasQuarantinedWhenHeld(g: Registry, limits: Limits, m: ModelId, r: RequestId)
    requires IndicesConsistent(g, limits)
    requires m in g.models && r in g.models[m].pendingSequences
    ensures HasQuarantined(g, m, r) && r in g.pendingRequestIndex && g.pendingRequestIndex[r] == m
  {
    hide RequestsIndexed, SequencesIndexed, PendingIndexed, PendingSequencesIndexed;
    PendingIsIndexed(g.models, g.pendingRequestIndex, m, r);
    WithoutKey(g.pendingRequestIndex, r);
  }

  lemma RetriedSlot(m: ModelId, slot: ModelSlot, r: RequestId, limits: Limits)
    requires SlotShaped(m, slot, limits) && slot.reserved == SlotTotal(slot)
    requires r in slot.pendingSequences && slot.pendingSequences[r].attempts < limits.maximumAttempts
    ensures SlotShaped(m, SlotRetried(slot, r), limits)
    ensures SlotRetried(slot, r).reserved == SlotTotal(SlotRetried(slot, r))
    ensures SlotBackend(slot) == SlotBackend(SlotRetried(slot, r))
  {
    hide Sum;
    var pending := SlotRetried(slot, r).pendingSequences[r];
    assert |SlotRetried(slot, r).pendingSequences| == |slot.pendingSequences| by {
      assert SlotRetried(slot, r).pendingSequences.Keys == slot.pendingSequences.Keys;
    }
    SumUpdate(slot.pendingSequences, PendingPart, r, pending);
  }

  lemma RetrySequenceKeeps(g: Registry, limits: Limits, w: World, m: ModelId, r: RequestId)
    requires HasQuarantined(g, m, r) && Consistent(g, limits, w)
    requires g.models[m].pendingSequences[r].attempts < limits.maximumAttempts
    ensures Consistent(RetrySequence(g, m, r), limits, Apply(w, Destroy(g.models[m].pendingSequences[r].sequence.key, false)))
  {
    hide ModelsConsistent, IndicesConsistent, LedgerConsistent, OwnershipConsistent, Apply;
    RetrySequenceRegistry(g, limits, m, r);
    RetrySequenceOwnership(g, w, m, r);
  }

  lemma RetrySequenceRegistry(g: Registry, limits: Limits, m: ModelId, r: RequestId)
    requires HasQuarantined(g, m, r) && ModelsConsistent(g, limits) && IndicesConsistent(g, limits) && LedgerConsistent(g, limits)
    requires g.models[m].pendingSequences[r].attempts < limits.maximumAttempts
    ensures var next := RetrySequence(g, m, r);
            ModelsConsistent(next, limits) && IndicesConsistent(next, limits) && LedgerConsistent(next, limits)
  {
    hide SlotShaped, SlotTotal, ModelsConsistent, IndicesConsistent, SlotBackend, Sum, BackendTotal, FitsU64, WithinBudget;
    RetrySequenceModels(g, limits, m, r);
    RetrySequenceIndices(g, limits, m, r);
    SlotAt(g, limits, m);
    RetriedSlot(m, g.models[m], r, limits);
    SlotShrinksTotal(g.models, g.pendingModels, m, SlotRetried(g.models[m], r), Zero());
  }

  lemma RetrySequenceModels(g: Registry, limits: Limits, m: ModelId, r: RequestId)
    requires HasQuarantined(g, m, r) && ModelsConsistent(g, limits)
    requires g.models[m].pendingSequences[r].attempts < limits.maximumAttempts
    ensures ModelsConsistent(RetrySequence(g, m, r), limits)
  {
    hide SlotShaped, SlotTotal, ModelsConsistent;
    SlotAt(g, limits, m);
    RetriedSlot(m, g.models[m], r, limits);
    SlotReplacedModels(g, RetrySequence(g, m, r), limits, m, SlotRetried(g.models[m], r));
  }

  lemma RetrySequenceIndices(g: Registry, limits: Limits, m: ModelId, r: RequestId)
    requires HasQuarantined(g, m, r) && IndicesConsistent(g, limits)
    ensures IndicesConsistent(RetrySequence(g, m, r), limits)
  {
    hide RequestsIndexed, SequencesIndexed, PendingIndexed, PendingSequencesIndexed;
    var slot := SlotRetried(g.models[m], r);
    ActiveKept(g.models, g.requestIndex, g.sequenceIndex, m, slot);
    QuarantineKept(g.models, g.pendingRequestIndex, g.pendingSequenceIndex, m, slot);
  }

  lemma RetrySequenceOwnership(g: Registry, w: World, m: ModelId, r: RequestId)
    requires HasQuarantined(g, m, r) && OwnershipConsistent(g, w)
    ensures OwnershipConsistent(RetrySequence(g, m, r), Apply(w, Destroy(g.models[m].pendingSequences[r].sequence.key, false)))
  {
    hide LiveHeld, QuarantineHeld, ModelsOwned, OnlyChanges, Apply;
    var slot, k := SlotRetried(g.models[m], r), g.models[m].pendingSequences[r].sequence.key;
    QuarantineRecord(g.models, g.sequenceOwners, w.sequences, m, r);
    var records := w.sequences[k := AfterDestroy(w.sequences[k], false)];
    RecordChanged(k, g.sequenceOwners, w.sequences, AfterDestroy(w.sequences[k], false));
    ApplyDestroy(w, k, false);
    LiveKept(g.models, g.sequenceOwners, g.sequenceOwners, w.sequences, records, m, slot, k);
    QuarantinedRetried(g.models, g.sequenceOwners, w.sequences, records, m, slot, r, slot.pendingSequences[r], k);
    ModelKept(g.models, g.pendingModels, g.modelOwners, w.models, m, slot);
  }

  lemma DropQuarantinedSlot(m: ModelId, slot: ModelSlot, r: RequestId, limits: Limits)
    requires SlotShaped(m, slot, limits) && slot.reserved == SlotTotal(slot)
    requires r in slot.pendingSequences
    ensures SlotShaped(m, SlotWithoutQuarantined(slot, r), limits)
    ensures SlotWithoutQuarantined(slot, r).reserved == SlotTotal(SlotWithoutQuarantined(slot, r))
    ensures AtMost(slot.pendingSequences[r].footprint, slot.reserved)
    ensures SlotBackend(slot) == Plus(SlotBackend(SlotWithoutQuarantined(slot, r)), slot.pendingSequences[r].footprint)
  {
    hide Sum;
    SumRemove(slot.pendingSequences, PendingPart, r);
    WithoutKey(slot.pendingSequences, r);
  }

  lemma DropQuarantinedModels(g: Registry, limits: Limits, m: ModelId, r: RequestId)
    requires HasQuarantined(g, m, r) && ModelsConsistent(g, limits)
    ensures ModelsConsistent(DropQuarantined(g, m, r), limits)
  {
    hide SlotShaped, SlotTotal, ModelsConsistent, Minus;
    SlotAt(g, limits, m);
    DropQuarantinedSlot(m, g.models[m], r, limits);
    SlotReplacedModels(g, DropQuarantined(g, m, r), limits, m, SlotWithoutQuarantined(g.models[m], r));
  }

  lemma DropQuarantinedIndices(g: Registry, limits: Limits, m: ModelId, r: RequestId)
    requires HasQuarantined(g, m, r) && IndicesConsistent(g, limits)
    ensures IndicesConsistent(DropQuarantined(g, m, r), limits)
  {
    hide RequestsIndexed, SequencesIndexed, PendingIndexed, PendingSequencesIndexed;
    HasQuarantinedWhenHeld(g, limits, m, r);
    var slot := SlotWithoutQuarantined(g.models[m], r);
    WithoutKey(g.pendingRequestIndex, r);
    ActiveKept(g.models, g.requestIndex, g.sequenceIndex, m, slot);
    QuarantineRemoved(g.models, g.pendingRequestIndex, g.pendingSequenceIndex, m, slot, r);
  }

  lemma DropQuarantinedLedger(g: Registry, limits: Limits, m: ModelId, r: RequestId)
    requires HasQuarantined(g, m, r) && LedgerConsistent(g, limits) && ModelsConsistent(g, limits)
    ensures LedgerConsistent(DropQuarantined(g, m, r), limits)
    ensures AtMost(g.models[m].pendingSequences[r].footprint, g.reserved)
  {
    hide Sum, SlotShaped, ModelsConsistent, SlotTotal, SlotBackend, SlotWithoutQuarantined, Plus, Minus, BackendTotal, FitsU64, WithinBudget, AtMost;
    var slot, f := SlotWithoutQuarantined(g.models[m], r), g.models[m].pendingSequences[r].footprint;
    SlotAt(g, limits, m);
    DropQuarantinedSlot(m, g.models[m], r, limits);
    SlotShrinksTotal(g.models, g.pendingModels, m, slot, f);
    LedgerShrinks(BackendTotal(g.models[m := slot], g.pendingModels), f, g.reservedWorkspace, limits.budget);
  }

  lemma DropQuarantinedOwnership(g: Registry, w: World, m: ModelId, r: RequestId)
    requires HasQuarantined(g, m, r) && OwnershipConsistent(g, w)
    ensures OwnershipConsistent(DropQuarantined(g, m, r), Apply(w, Destroy(g.models[m].pendingSequences[r].sequence.key, true)))
  {
    hide LiveHeld, QuarantineHeld, ModelsOwned, OnlyChanges, Apply;
    var slot, k := SlotWithoutQuarantined(g.models[m], r), g.models[m].pendingSequences[r].sequence.key;
    QuarantineRecord(g.models, g.sequenceOwners, w.sequences, m, r);
    var records := w.sequences[k := AfterDestroy(w.sequences[k], true)];
    RecordReleased(k, g.sequenceOwners, w.sequences, AfterDestroy(w.sequences[k], true));
    ApplyDestroy(w, k, true);
    LiveKept(g.models, g.sequenceOwners, g.sequenceOwners - {k}, w.sequences, records, m, slot, k);
    QuarantinedRemoved(g.models, g.sequenceOwners, g.sequenceOwners - {k}, w.sequences, records, m, slot, r, k);
    ModelKept(g.models, g.pendingModels, g.modelOwners, w.models, m, slot);
  }

  lemma DropQuarantinedKeeps(g: Registry, limits: Limits, w: World, m: ModelId, r: RequestId)
    requires HasQuarantined(g, m, r) && Consistent(g, limits, w)
    ensures Consistent(DropQuarantined(g, m, r), limits, Apply(w, Destroy(g.models[m].pendingSequences[r].sequence.key, true)))
  {
    hide ModelsConsistent, IndicesConsistent, LedgerConsistent, OwnershipConsistent, Apply, DropQuarantined;
    DropQuarantinedModels(g, limits, m, r);
    DropQuarantinedIndices(g, limits, m, r);
    DropQuarantinedLedger(g, limits, m, r);
    DropQuarantinedOwnership(g, w, m, r);
  }
}
