// The registry's data and the consistency conditions every reachable state meets
// (the fields of InferenceRuntime and ModelSlot in runtime.rs).
module Registry {
  import opened Common
  import opened Footprints
  import opened Lifecycle
  import opened RuntimeTypes
  import opened BackendProtocol
  import opened Backends

  datatype Usage = Usage(promptTokens: nat, generatedTokens: nat)

  datatype RequestSlot = RequestSlot(
    sequence: Sequence,
    backendFootprint: Footprint,
    workspaceFootprint: Footprint,
    usage: Usage
  )

  datatype PendingSequence = PendingSequence(
    request: RequestId,
    sequenceId: SequenceId,
    sequence: Sequence,
    footprint: Footprint,
    failure: CleanupReport,
    attempts: nat
  )

  datatype PendingModel = PendingModel(
    model: Model,
    footprint: Footprint,
    failure: CleanupReport,
    attempts: nat,
    cancelledRequests: nat
  )

  datatype ModelSlot = ModelSlot(
    handle: ModelHandle,
    descriptor: Descriptor,
    lifecycle: State,
    model: Model,
    modelFootprint: Footprint,
    reserved: Footprint,
    requests: map<RequestId, RequestSlot>,
    pendingSequences: map<RequestId, PendingSequence>,
    poisoned: bool,
    cancelledDuringUnload: nat
  )

  datatype Limits = Limits(
    maximumModels: nat,
    maximumRequests: nat,
    budget: Budget,
    maximumAttempts: nat
  )

  type Models = map<ModelId, ModelSlot>

  // ----- Footprint sums -----

  function BackendPart(r: RequestSlot): Footprint {
    r.backendFootprint
  }

  function WholeRequest(r: RequestSlot): Footprint {
    Plus(r.backendFootprint, r.workspaceFootprint)
  }

  function PendingPart(p: PendingSequence): Footprint {
    p.footprint
  }

  function PendingModelPart(p: PendingModel): Footprint {
    p.footprint
  }

  // What one slot's own ledger must hold: model, requests with workspaces, quarantine.
  ghost function SlotTotal(slot: ModelSlot): Footprint {
    Plus(slot.modelFootprint, Plus(Sum(slot.requests, WholeRequest), Sum(slot.pendingSequences, PendingPart)))
  }

  // What one slot contributes to the global ledger: everything but host workspaces.
  ghost function SlotBackend(slot: ModelSlot): Footprint {
    Plus(slot.modelFootprint, Plus(Sum(slot.requests, BackendPart), Sum(slot.pendingSequences, PendingPart)))
  }

  ghost function BackendTotal(models: Models, pendingModels: map<ModelId, PendingModel>): Footprint {
    Plus(Sum(models, SlotBackend), Sum(pendingModels, PendingModelPart))
  }

  function Identity(f: Footprint): Footprint {
    f
  }

  // ----- The whole registry -----

  // Where an unreleased sequence is held.
  datatype Owner = Owner(model: ModelId, request: RequestId)

  // The registry's mutable state. The ghost parts are the proof's bookkeeping: host
  // workspaces not yet released, the holders of unreleased backend resources, and
  // every handle a load has returned.
  datatype Registry = Registry(
    models: Models,
    pendingModels: map<ModelId, PendingModel>,
    requestIndex: map<RequestId, ModelId>,
    sequenceIndex: map<SequenceId, RequestId>,
    pendingRequestIndex: map<RequestId, ModelId>,
    pendingSequenceIndex: map<SequenceId, RequestId>,
    generations: map<ModelId, nat>,
    reserved: Footprint,
    reservedWorkspace: Footprint,
    activeRequests: nat,
    generationWorkspaces: nat,
    pendingCleanupSequences: nat,
    ghost workspaces: map<RequestId, Footprint>,
    ghost sequenceOwners: map<Key, Owner>,
    ghost modelOwners: map<Key, ModelId>,
    ghost issued: set<ModelHandle>
  )

  // ----- One slot -----

  ghost predicate SlotShaped(m: ModelId, slot: ModelSlot, limits: Limits) {
    && slot.handle.id == m
    && slot.lifecycle.WellFormed()
    && (slot.lifecycle.Accepting() || slot.lifecycle.Draining? || slot.lifecycle.Cancelling? || slot.lifecycle.Unloading?)
    && slot.lifecycle.ActiveCount() == |slot.requests|
    && (slot.poisoned <==> slot.pendingSequences != map[])
    && slot.requests.Keys !! slot.pendingSequences.Keys
    && |slot.requests| + |slot.pendingSequences| <= slot.descriptor.maximumSequences
    && FitsU64(slot.reserved)
    && (forall r :: r in slot.pendingSequences ==>
          && slot.pendingSequences[r].request == r
          && 1 <= slot.pendingSequences[r].attempts <= limits.maximumAttempts)
  }

  ghost predicate SlotsConsistent(models: Models, limits: Limits) {
    forall m :: m in models ==> SlotShaped(m, models[m], limits) && models[m].reserved == SlotTotal(models[m])
  }

  ghost predicate ModelsConsistent(g: Registry, limits: Limits) {
    && SlotsConsistent(g.models, limits)
    && g.models.Keys !! g.pendingModels.Keys
    && |g.models| + |g.pendingModels| <= limits.maximumModels
    && (forall m :: m in g.pendingModels ==> 1 <= g.pendingModels[m].attempts <= limits.maximumAttempts)
    && GenerationsConsistent(g.models, g.pendingModels, g.generations, g.issued)
  }

  // Each resident model carries its id's latest generation, and no handle ever
  // issued is newer than that.
  ghost predicate GenerationsConsistent(models: Models, pendingModels: map<ModelId, PendingModel>,
                                        generations: map<ModelId, nat>, issued: set<ModelHandle>) {
    && (forall m :: m in models ==> m in generations && models[m].handle.generation == generations[m])
    && (forall m :: m in pendingModels ==> m in generations)
    && (forall h :: h in issued ==> h.id in generations && h.generation <= generations[h.id])
  }

  // ----- The four identity indices -----

  // The index holds exactly the active requests of all slots.
  ghost predicate RequestsIndexed(models: Models, index: map<RequestId, ModelId>) {
    && (forall r :: r in index ==> index[r] in models && r in models[index[r]].requests)
    && (forall m, r :: m in models && r in models[m].requests ==> r in index && index[r] == m)
  }

  ghost predicate PendingIndexed(models: Models, index: map<RequestId, ModelId>) {
    && (forall r :: r in index ==> index[r] in models && r in models[index[r]].pendingSequences)
    && (forall m, r :: m in models && r in models[m].pendingSequences ==> r in index && index[r] == m)
  }

  // The sequence index is the exact inverse of "sequence of a request".
  ghost predicate SequencesIndexed(models: Models, index: map<RequestId, ModelId>, sequences: map<SequenceId, RequestId>)
    requires RequestsIndexed(models, index)
  {
    && (forall s :: s in sequences ==>
          sequences[s] in index && models[index[sequences[s]]].requests[sequences[s]].sequence.id == s)
    && (forall r :: r in index ==>
          var s := models[index[r]].requests[r].sequence.id; s in sequences && sequences[s] == r)
  }

  ghost predicate PendingSequencesIndexed(models: Models, index: map<RequestId, ModelId>, sequences: map<SequenceId, RequestId>)
    requires PendingIndexed(models, index)
  {
    && (forall s :: s in sequences ==>
          sequences[s] in index && models[index[sequences[s]]].pendingSequences[sequences[s]].sequenceId == s)
    && (forall r :: r in index ==>
          var s := models[index[r]].pendingSequences[r].sequenceId; s in sequences && sequences[s] == r)
  }

  ghost predicate IndicesConsistent(g: Registry, limits: Limits) {
    && RequestsIndexed(g.models, g.requestIndex)
    && PendingIndexed(g.models, g.pendingRequestIndex)
    && SequencesIndexed(g.models, g.requestIndex, g.sequenceIndex)
    && PendingSequencesIndexed(g.models, g.pendingRequestIndex, g.pendingSequenceIndex)
    && g.requestIndex.Keys !! g.pendingRequestIndex.Keys
    && g.sequenceIndex.Keys !! g.pendingSequenceIndex.Keys
    && g.activeRequests == |g.requestIndex|
    && g.pendingCleanupSequences == |g.pendingRequestIndex|
    && g.activeRequests + g.pendingCleanupSequences <= limits.maximumRequests
  }

  // ----- The global ledger -----

  ghost predicate LedgerConsistent(g: Registry, limits: Limits) {
    && g.reserved == Plus(BackendTotal(g.models, g.pendingModels), g.reservedWorkspace)
    && g.reservedWorkspace == Sum(g.workspaces, Identity)
    && g.generationWorkspaces == |g.workspaces|
    && FitsU64(g.reserved)
    && WithinBudget(g.reserved, limits.budget)
  }

  // ----- Backend ownership -----

  // The unreleased sequences of the backend log are exactly the owned ones ...
  ghost predicate OwnersExact(owners: map<Key, Owner>, records: map<Key, SequenceRecord>) {
    forall k :: k in owners <==> k in records && records[k].status != Destroyed
  }

  // ... the live ones are exactly the sequences of active requests ...
  ghost predicate LiveHeld(models: Models, owners: map<Key, Owner>, records: map<Key, SequenceRecord>) {
    LiveLocated(models, owners, records) && RequestsLive(models, owners, records)
  }

  ghost predicate LiveLocated(models: Models, owners: map<Key, Owner>, records: map<Key, SequenceRecord>) {
    forall k :: k in records && records[k].status == Live ==>
      && k in owners
      && owners[k].model in models
      && owners[k].request in models[owners[k].model].requests
      && models[owners[k].model].requests[owners[k].request].sequence.key == k
      && models[owners[k].model].model.key == records[k].model
  }

  ghost predicate RequestsLive(models: Models, owners: map<Key, Owner>, records: map<Key, SequenceRecord>) {
    forall m, r :: m in models && r in models[m].requests ==>
      var k := models[m].requests[r].sequence.key;
      k in owners && owners[k] == Owner(m, r) && k in records && records[k].status == Live
  }

  // ... and the others are exactly the quarantined ones, with the attempts the log counts.
  ghost predicate QuarantineHeld(models: Models, owners: map<Key, Owner>, records: map<Key, SequenceRecord>) {
    FailedLocated(models, owners, records) && PendingFailed(models, owners, records)
  }

  ghost predicate FailedLocated(models: Models, owners: map<Key, Owner>, records: map<Key, SequenceRecord>) {
    forall k :: k in records && records[k].status.DestroyFailed? ==>
      && k in owners
      && owners[k].model in models
      && owners[k].request in models[owners[k].model].pendingSequences
      && models[owners[k].model].pendingSequences[owners[k].request].sequence.key == k
      && models[owners[k].model].model.key == records[k].model
  }

  ghost predicate PendingFailed(models: Models, owners: map<Key, Owner>, records: map<Key, SequenceRecord>) {
    forall m, r :: m in models && r in models[m].pendingSequences ==>
      var p := models[m].pendingSequences[r];
      && p.sequence.key in owners && owners[p.sequence.key] == Owner(m, r)
      && p.sequence.key in records && records[p.sequence.key].status == DestroyFailed(p.attempts)
  }

  ghost predicate ModelsOwned(models: Models, pendingModels: map<ModelId, PendingModel>, owners: map<Key, ModelId>, statuses: map<Key, ModelStatus>) {
    && (forall k :: k in owners <==> k in statuses && statuses[k] != Unloaded)
    && (forall k :: k in owners ==>
          if statuses[k] == Resident then owners[k] in models && models[owners[k]].model.key == k
          else owners[k] in pendingModels && pendingModels[owners[k]].model.key == k)
    && (forall m :: m in models ==>
          var k := models[m].model.key; k in owners && owners[k] == m && statuses[k] == Resident)
    && (forall m :: m in pendingModels ==>
          var p := pendingModels[m];
          p.model.key in owners && owners[p.model.key] == m && statuses[p.model.key] == UnloadFailed(p.attempts))
  }

  ghost predicate OwnershipConsistent(g: Registry, w: World) {
    && OwnersExact(g.sequenceOwners, w.sequences)
    && LiveHeld(g.models, g.sequenceOwners, w.sequences)
    && QuarantineHeld(g.models, g.sequenceOwners, w.sequences)
    && ModelsOwned(g.models, g.pendingModels, g.modelOwners, w.models)
  }

  ghost predicate LimitsOk(limits: Limits) {
    limits.maximumAttempts >= 1 && limits.maximumRequests <= U32_MAX && limits.maximumModels <= U32_MAX
  }

  // Everything every reachable registry state satisfies, after success and error alike.
  ghost predicate Consistent(g: Registry, limits: Limits, w: World) {
    && ModelsConsistent(g, limits)
    && IndicesConsistent(g, limits)
    && LedgerConsistent(g, limits)
    && OwnershipConsistent(g, w)
  }

  // ----- Comparing two states -----

  // The slot of an active request, where the index puts it.
  ghost predicate ActiveAt(g: Registry, r: RequestId, request: RequestSlot) {
    && r in g.requestIndex
    && g.requestIndex[r] in g.models
    && r in g.models[g.requestIndex[r]].requests
    && g.models[g.requestIndex[r]].requests[r] == request
  }

  // From g to g' nothing was admitted and nothing executed: whatever is still active
  // is untouched, whatever is quarantined was held before, and host workspaces stay.
  ghost predicate Quiet(g: Registry, g': Registry) {
    && g'.workspaces == g.workspaces
    && g'.issued == g.issued
    && (forall r :: r in g'.requestIndex ==> r in g.requestIndex)
    && (forall r, request :: ActiveAt(g, r, request) && r in g'.requestIndex ==> ActiveAt(g', r, request))
    && (forall r :: r in g'.pendingRequestIndex ==> r in g.requestIndex || r in g.pendingRequestIndex)
  }

  // Only model m and what it holds may differ.
  ghost predicate OthersKept(g: Registry, g': Registry, m: ModelId) {
    && (forall x :: x != m ==> (x in g.models <==> x in g'.models))
    && (forall x :: x != m && x in g.models ==> g'.models[x] == g.models[x])
    && (forall x :: x != m ==> (x in g.pendingModels <==> x in g'.pendingModels))
    && (forall x :: x != m && x in g.pendingModels ==> g'.pendingModels[x] == g.pendingModels[x])
  }
}
