// How the identity indices and the ownership maps follow one change of one slot.
module RegistryIndices {
  import opened RuntimeTypes
  import opened BackendProtocol
  import opened Registry

  // ----- Slots and generations -----

  lemma SlotsPut(models: Models, limits: Limits, m: ModelId, slot: ModelSlot)
    requires SlotsConsistent(models, limits)
    requires SlotShaped(m, slot, limits) && slot.reserved == SlotTotal(slot)
    ensures SlotsConsistent(models[m := slot], limits)
  {
    hide SlotShaped, SlotTotal;
  }

  lemma SlotsRemoved(models: Models, limits: Limits, m: ModelId)
    requires SlotsConsistent(models, limits)
    ensures SlotsConsistent(models - {m}, limits)
  {
    hide SlotShaped, SlotTotal;
  }

  lemma GenerationsKept(models: Models, pendingModels: map<ModelId, PendingModel>, generations: map<ModelId, nat>,
                        issued: set<ModelHandle>, m: ModelId, slot: ModelSlot)
    requires GenerationsConsistent(models, pendingModels, generations, issued)
    requires m in models && slot.handle == models[m].handle
    ensures GenerationsConsistent(models[m := slot], pendingModels, generations, issued)
  {
  }

  lemma GenerationsShrink(models: Models, pendingModels: map<ModelId, PendingModel>, generations: map<ModelId, nat>,
                          issued: set<ModelHandle>, models': Models, pendingModels': map<ModelId, PendingModel>)
    requires GenerationsConsistent(models, pendingModels, generations, issued)
    requires forall m :: m in models' ==> m in models && models'[m] == models[m]
    requires pendingModels'.Keys <= pendingModels.Keys + models.Keys
    ensures GenerationsConsistent(models', pendingModels', generations, issued)
  {
    forall m | m in pendingModels' ensures m in generations {
      assert m in pendingModels.Keys + models.Keys;
    }
  }

  lemma GenerationsModelAdded(models: Models, pendingModels: map<ModelId, PendingModel>, generations: map<ModelId, nat>,
                              issued: set<ModelHandle>, m: ModelId, slot: ModelSlot)
    requires GenerationsConsistent(models, pendingModels, generations, issued)
    requires slot.handle.id == m && slot.handle.generation == if m in generations then generations[m] + 1 else 1
    ensures GenerationsConsistent(models[m := slot], pendingModels, generations[m := slot.handle.generation], issued + {slot.handle})
    ensures slot.handle !in issued
  {
  }

  lemma GenerationsPendingAdded(models: Models, pendingModels: map<ModelId, PendingModel>, generations: map<ModelId, nat>,
                                issued: set<ModelHandle>, m: ModelId, pending: PendingModel)
    requires GenerationsConsistent(models, pendingModels, generations, issued)
    requires m !in models
    ensures GenerationsConsistent(models, pendingModels[m := pending],
                                  generations[m := if m in generations then generations[m] + 1 else 1], issued)
  {
  }

  // ----- Active requests -----

  ghost predicate ActiveIndexed(models: Models, index: map<RequestId, ModelId>, sequences: map<SequenceId, RequestId>) {
    RequestsIndexed(models, index) && SequencesIndexed(models, index, sequences)
  }

  ghost predicate QuarantineIndexed(models: Models, index: map<RequestId, ModelId>, sequences: map<SequenceId, RequestId>) {
    PendingIndexed(models, index) && PendingSequencesIndexed(models, index, sequences)
  }

  // Both slots hold the same requests under the same backend identities.
  ghost predicate SameRequests(a: ModelSlot, b: ModelSlot) {
    && a.requests.Keys == b.requests.Keys
    && (forall r :: r in a.requests ==>
          a.requests[r].sequence.id == b.requests[r].sequence.id && a.requests[r].sequence.key == b.requests[r].sequence.key)
  }

  lemma ActiveKept(models: Models, index: map<RequestId, ModelId>, sequences: map<SequenceId, RequestId>, m: ModelId, slot: ModelSlot)
    requires ActiveIndexed(models, index, sequences)
    requires m in models && SameRequests(slot, models[m])
    ensures ActiveIndexed(models[m := slot], index, sequences)
  {
  }

  lemma ActiveRemoved(models: Models, index: map<RequestId, ModelId>, sequences: map<SequenceId, RequestId>,
                      m: ModelId, slot: ModelSlot, r: RequestId)
    requires ActiveIndexed(models, index, sequences)
    requires r in index && index[r] == m
    requires slot.requests == models[m].requests - {r}
    ensures ActiveIndexed(models[m := slot], index - {r}, sequences - {models[m].requests[r].sequence.id})
    ensures models[m].requests[r].sequence.id in sequences
  {
  }

  lemma RequestAdded(models: Models, index: map<RequestId, ModelId>, m: ModelId, slot: ModelSlot, r: RequestId, request: RequestSlot)
    requires RequestsIndexed(models, index)
    requires m in models && r !in index
    requires slot.requests == models[m].requests[r := request]
    ensures RequestsIndexed(models[m := slot], index[r := m])
  {
  }

  lemma ActiveAdded(models: Models, index: map<RequestId, ModelId>, sequences: map<SequenceId, RequestId>,
                    m: ModelId, slot: ModelSlot, r: RequestId, request: RequestSlot)
    requires ActiveIndexed(models, index, sequences)
    requires m in models && r !in index && request.sequence.id !in sequences
    requires slot.requests == models[m].requests[r := request]
    ensures ActiveIndexed(models[m := slot], index[r := m], sequences[request.sequence.id := r])
  {
    RequestAdded(models, index, m, slot, r, request);
  }

  lemma ActiveModelRemoved(models: Models, index: map<RequestId, ModelId>, sequences: map<SequenceId, RequestId>, m: ModelId)
    requires ActiveIndexed(models, index, sequences)
    requires m in models && models[m].requests == map[]
    ensures ActiveIndexed(models - {m}, index, sequences)
  {
    forall r | r in index ensures index[r] != m {
      assert r in models[index[r]].requests;
    }
  }

  lemma ActiveModelAdded(models: Models, index: map<RequestId, ModelId>, sequences: map<SequenceId, RequestId>, m: ModelId, slot: ModelSlot)
    requires ActiveIndexed(models, index, sequences)
    requires m !in models && slot.requests == map[]
    ensures ActiveIndexed(models[m := slot], index, sequences)
  {
  }

  lemma NoneActive(models: Models, index: map<RequestId, ModelId>)
    requires RequestsIndexed(models, index)
    requires forall m :: m in models ==> models[m].requests == map[]
    ensures index == map[]
  {
    assert index.Keys == {};
  }

  // ----- Quarantined sequences -----

  lemma NoneQuarantined(models: Models, index: map<RequestId, ModelId>)
    requires PendingIndexed(models, index)
    requires forall m :: m in models ==> models[m].pendingSequences == map[]
    ensures index == map[]
  {
    assert index.Keys == {};
  }

  lemma QuarantineKept(models: Models, index: map<RequestId, ModelId>, sequences: map<SequenceId, RequestId>, m: ModelId, slot: ModelSlot)
    requires QuarantineIndexed(models, index, sequences)
    requires m in models && slot.pendingSequences.Keys == models[m].pendingSequences.Keys
    requires forall r :: r in slot.pendingSequences ==> slot.pendingSequences[r].sequenceId == models[m].pendingSequences[r].sequenceId
    ensures QuarantineIndexed(models[m := slot], index, sequences)
  {
  }

  lemma PendingIsIndexed(models: Models, index: map<RequestId, ModelId>, m: ModelId, r: RequestId)
    requires PendingIndexed(models, index)
    requires m in models && r in models[m].pendingSequences
    ensures r in index && index[r] == m
  {
  }

  lemma QuarantineRemoved(models: Models, index: map<RequestId, ModelId>, sequences: map<SequenceId, RequestId>,
                          m: ModelId, slot: ModelSlot, r: RequestId)
    requires QuarantineIndexed(models, index, sequences)
    requires r in index && index[r] == m
    requires slot.pendingSequences == models[m].pendingSequences - {r}
    ensures QuarantineIndexed(models[m := slot], index - {r}, sequences - {models[m].pendingSequences[r].sequenceId})
    ensures models[m].pendingSequences[r].sequenceId in sequences
  {
  }

  lemma QuarantineAdded(models: Models, index: map<RequestId, ModelId>, sequences: map<SequenceId, RequestId>,
                        m: ModelId, slot: ModelSlot, r: RequestId, pending: PendingSequence)
    requires QuarantineIndexed(models, index, sequences)
    requires m in models && r !in index && pending.sequenceId !in sequences
    requires slot.pendingSequences == models[m].pendingSequences[r := pending]
    ensures QuarantineIndexed(models[m := slot], index[r := m], sequences[pending.sequenceId := r])
  {
    PendingAdded(models, index, m, slot, r, pending);
  }

  lemma PendingAdded(models: Models, index: map<RequestId, ModelId>, m: ModelId, slot: ModelSlot, r: RequestId, pending: PendingSequence)
    requires PendingIndexed(models, index)
    requires m in models && r !in index
    requires slot.pendingSequences == models[m].pendingSequences[r := pending]
    ensures PendingIndexed(models[m := slot], index[r := m])
  {
  }

  lemma QuarantineModelRemoved(models: Models, index: map<RequestId, ModelId>, sequences: map<SequenceId, RequestId>, m: ModelId)
    requires QuarantineIndexed(models, index, sequences)
    requires m in models && models[m].pendingSequences == map[]
    ensures QuarantineIndexed(models - {m}, index, sequences)
  {
    forall r | r in index ensures index[r] != m {
      assert r in models[index[r]].pendingSequences;
    }
  }

  lemma QuarantineModelAdded(models: Models, index: map<RequestId, ModelId>, sequences: map<SequenceId, RequestId>, m: ModelId, slot: ModelSlot)
    requires QuarantineIndexed(models, index, sequences)
    requires m !in models && slot.pendingSequences == map[]
    ensures QuarantineIndexed(models[m := slot], index, sequences)
  {
  }

  // ----- Backend ownership of sequences -----

  // The two states of the log agree on sequences other than k.
  ghost predicate OnlyChanges(k: Key, owners: map<Key, Owner>, owners': map<Key, Owner>,
                              records: map<Key, SequenceRecord>, records': map<Key, SequenceRecord>) {
    && (forall x :: x != k ==> (x in owners <==> x in owners') && (x in records <==> x in records'))
    && (forall x :: x != k && x in owners ==> owners'[x] == owners[x])
    && (forall x :: x != k && x in records ==> records'[x] == records[x])
  }

  lemma RecordChanged(k: Key, owners: map<Key, Owner>, records: map<Key, SequenceRecord>, record: SequenceRecord)
    ensures OnlyChanges(k, owners, owners, records, records[k := record])
  {
  }

  lemma RecordReleased(k: Key, owners: map<Key, Owner>, records: map<Key, SequenceRecord>, record: SequenceRecord)
    ensures OnlyChanges(k, owners, owners - {k}, records, records[k := record])
  {
  }

  lemma RecordOwned(k: Key, owners: map<Key, Owner>, owner: Owner, records: map<Key, SequenceRecord>, record: SequenceRecord)
    ensures OnlyChanges(k, owners, owners[k := owner], records, records[k := record])
  {
  }

  lemma LiveRecord(models: Models, owners: map<Key, Owner>, records: map<Key, SequenceRecord>, m: ModelId, r: RequestId)
    requires LiveHeld(models, owners, records)
    requires m in models && r in models[m].requests
    ensures var k := models[m].requests[r].sequence.key;
            k in records && records[k] == SequenceRecord(models[m].model.key, Live) && k in owners && owners[k] == Owner(m, r)
  {
  }

  lemma QuarantineRecord(models: Models, owners: map<Key, Owner>, records: map<Key, SequenceRecord>, m: ModelId, r: RequestId)
    requires QuarantineHeld(models, owners, records)
    requires m in models && r in models[m].pendingSequences
    ensures var p := models[m].pendingSequences[r]; var k := p.sequence.key;
            k in records && records[k] == SequenceRecord(models[m].model.key, DestroyFailed(p.attempts))
            && k in owners && owners[k] == Owner(m, r)
  {
  }

  lemma LiveKept(models: Models, owners: map<Key, Owner>, owners': map<Key, Owner>,
                 records: map<Key, SequenceRecord>, records': map<Key, SequenceRecord>, m: ModelId, slot: ModelSlot, k: Key)
    requires LiveHeld(models, owners, records)
    requires m in models && SameRequests(slot, models[m]) && slot.model.key == models[m].model.key
    requires OnlyChanges(k, owners, owners', records, records')
    requires k in records ==> records[k].status != Live
    requires k in records' ==> records'[k].status != Live
    ensures LiveHeld(models[m := slot], owners', records')
  {
  }

  lemma LiveSame(models: Models, owners: map<Key, Owner>, records: map<Key, SequenceRecord>, m: ModelId, slot: ModelSlot)
    requires LiveHeld(models, owners, records)
    requires m in models && SameRequests(slot, models[m]) && slot.model.key == models[m].model.key
    ensures LiveHeld(models[m := slot], owners, records)
  {
  }

  lemma QuarantinedSame(models: Models, owners: map<Key, Owner>, records: map<Key, SequenceRecord>, m: ModelId, slot: ModelSlot)
    requires QuarantineHeld(models, owners, records)
    requires m in models && slot.pendingSequences == models[m].pendingSequences && slot.model.key == models[m].model.key
    ensures QuarantineHeld(models[m := slot], owners, records)
  {
  }

  lemma LiveRemoved(models: Models, owners: map<Key, Owner>, owners': map<Key, Owner>,
                    records: map<Key, SequenceRecord>, records': map<Key, SequenceRecord>,
                    m: ModelId, slot: ModelSlot, r: RequestId, k: Key)
    requires LiveHeld(models, owners, records)
    requires m in models && r in models[m].requests && k == models[m].requests[r].sequence.key
    requires slot.requests == models[m].requests - {r} && slot.model.key == models[m].model.key
    requires OnlyChanges(k, owners, owners', records, records')
    requires k in records' ==> records'[k].status != Live
    ensures LiveHeld(models[m := slot], owners', records')
  {
  }

  lemma LiveAddedLocated(models: Models, owners: map<Key, Owner>, owners': map<Key, Owner>,
                  records: map<Key, SequenceRecord>, records': map<Key, SequenceRecord>,
                  m: ModelId, slot: ModelSlot, r: RequestId, request: RequestSlot, k: Key)
    requires LiveHeld(models, owners, records)
    requires m in models && r !in models[m].requests && k !in records && k == request.sequence.key
    requires slot.requests == models[m].requests[r := request] && slot.model.key == models[m].model.key
    requires OnlyChanges(k, owners, owners', records, records')
    requires k in owners' && owners'[k] == Owner(m, r)
    requires k in records' && records'[k] == SequenceRecord(slot.model.key, Live)
    ensures LiveLocated(models[m := slot], owners', records')
  {
  }

  lemma LiveAddedListed(models: Models, owners: map<Key, Owner>, owners': map<Key, Owner>,
                  records: map<Key, SequenceRecord>, records': map<Key, SequenceRecord>,
                  m: ModelId, slot: ModelSlot, r: RequestId, request: RequestSlot, k: Key)
    requires LiveHeld(models, owners, records)
    requires m in models && r !in models[m].requests && k !in records && k == request.sequence.key
    requires slot.requests == models[m].requests[r := request] && slot.model.key == models[m].model.key
    requires OnlyChanges(k, owners, owners', records, records')
    requires k in owners' && owners'[k] == Owner(m, r)
    requires k in records' && records'[k] == SequenceRecord(slot.model.key, Live)
    ensures RequestsLive(models[m := slot], owners', records')
  {
  }

  lemma LiveAdded(models: Models, owners: map<Key, Owner>, owners': map<Key, Owner>,
                  records: map<Key, SequenceRecord>, records': map<Key, SequenceRecord>,
                  m: ModelId, slot: ModelSlot, r: RequestId, request: RequestSlot, k: Key)
    requires LiveHeld(models, owners, records)
    requires m in models && r !in models[m].requests && k !in records && k == request.sequence.key
    requires slot.requests == models[m].requests[r := request] && slot.model.key == models[m].model.key
    requires OnlyChanges(k, owners, owners', records, records')
    requires k in owners' && owners'[k] == Owner(m, r)
    requires k in records' && records'[k] == SequenceRecord(slot.model.key, Live)
    ensures LiveHeld(models[m := slot], owners', records')
  {
    LiveAddedLocated(models, owners, owners', records, records', m, slot, r, request, k);
    LiveAddedListed(models, owners, owners', records, records', m, slot, r, request, k);
  }

  lemma QuarantinedKept(models: Models, owners: map<Key, Owner>, owners': map<Key, Owner>,
                        records: map<Key, SequenceRecord>, records': map<Key, SequenceRecord>, m: ModelId, slot: ModelSlot, k: Key)
    requires QuarantineHeld(models, owners, records)
    requires m in models && slot.pendingSequences == models[m].pendingSequences && slot.model.key == models[m].model.key
    requires OnlyChanges(k, owners, owners', records, records')
    requires k in records ==> !records[k].status.DestroyFailed?
    requires k in records' ==> !records'[k].status.DestroyFailed?
    ensures QuarantineHeld(models[m := slot], owners', records')
  {
  }

  lemma QuarantinedRemovedLocated(models: Models, owners: map<Key, Owner>, owners': map<Key, Owner>,
                           records: map<Key, SequenceRecord>, records': map<Key, SequenceRecord>,
                           m: ModelId, slot: ModelSlot, r: RequestId, k: Key)
    requires QuarantineHeld(models, owners, records)
    requires m in models && r in models[m].pendingSequences && k == models[m].pendingSequences[r].sequence.key
    requires slot.pendingSequences == models[m].pendingSequences - {r} && slot.model.key == models[m].model.key
    requires OnlyChanges(k, owners, owners', records, records')
    requires k in records' ==> !records'[k].status.DestroyFailed?
    ensures FailedLocated(models[m := slot], owners', records')
  {
  }

  lemma QuarantinedRemovedListed(models: Models, owners: map<Key, Owner>, owners': map<Key, Owner>,
                           records: map<Key, SequenceRecord>, records': map<Key, SequenceRecord>,
                           m: ModelId, slot: ModelSlot, r: RequestId, k: Key)
    requires QuarantineHeld(models, owners, records)
    requires m in models && r in models[m].pendingSequences && k == models[m].pendingSequences[r].sequence.key
    requires slot.pendingSequences == models[m].pendingSequences - {r} && slot.model.key == models[m].model.key
    requires OnlyChanges(k, owners, owners', records, records')
    requires k in records' ==> !records'[k].status.DestroyFailed?
    ensures PendingFailed(models[m := slot], owners', records')
  {
  }

  lemma QuarantinedRemoved(models: Models, owners: map<Key, Owner>, owners': map<Key, Owner>,
                           records: map<Key, SequenceRecord>, records': map<Key, SequenceRecord>,
                           m: ModelId, slot: ModelSlot, r: RequestId, k: Key)
    requires QuarantineHeld(models, owners, records)
    requires m in models && r in models[m].pendingSequences && k == models[m].pendingSequences[r].sequence.key
    requires slot.pendingSequences == models[m].pendingSequences - {r} && slot.model.key == models[m].model.key
    requires OnlyChanges(k, owners, owners', records, records')
    requires k in records' ==> !records'[k].status.DestroyFailed?
    ensures QuarantineHeld(models[m := slot], owners', records')
  {
    QuarantinedRemovedLocated(models, owners, owners', records, records', m, slot, r, k);
    QuarantinedRemovedListed(models, owners, owners', records, records', m, slot, r, k);
  }

  lemma QuarantinedAddedLocated(models: Models, owners: map<Key, Owner>, owners': map<Key, Owner>,
                         records: map<Key, SequenceRecord>, records': map<Key, SequenceRecord>,
                         m: ModelId, slot: ModelSlot, r: RequestId, pending: PendingSequence, k: Key)
    requires QuarantineHeld(models, owners, records)
    requires m in models && r !in models[m].pendingSequences && k == pending.sequence.key
    requires k in records ==> !records[k].status.DestroyFailed?
    requires slot.pendingSequences == models[m].pendingSequences[r := pending] && slot.model.key == models[m].model.key
    requires OnlyChanges(k, owners, owners', records, records')
    requires k in owners' && owners'[k] == Owner(m, r)
    requires k in records' && records'[k] == SequenceRecord(slot.model.key, DestroyFailed(pending.attempts))
    ensures FailedLocated(models[m := slot], owners', records')
  {
  }

  lemma QuarantinedAddedListed(models: Models, owners: map<Key, Owner>, owners': map<Key, Owner>,
                         records: map<Key, SequenceRecord>, records': map<Key, SequenceRecord>,
                         m: ModelId, slot: ModelSlot, r: RequestId, pending: PendingSequence, k: Key)
    requires QuarantineHeld(models, owners, records)
    requires m in models && r !in models[m].pendingSequences && k == pending.sequence.key
    requires k in records ==> !records[k].status.DestroyFailed?
    requires slot.pendingSequences == models[m].pendingSequences[r := pending] && slot.model.key == models[m].model.key
    requires OnlyChanges(k, owners, owners', records, records')
    requires k in owners' && owners'[k] == Owner(m, r)
    requires k in records' && records'[k] == SequenceRecord(slot.model.key, DestroyFailed(pending.attempts))
    ensures PendingFailed(models[m := slot], owners', records')
  {
  }

  lemma QuarantinedAdded(models: Models, owners: map<Key, Owner>, owners': map<Key, Owner>,
                         records: map<Key, SequenceRecord>, records': map<Key, SequenceRecord>,
                         m: ModelId, slot: ModelSlot, r: RequestId, pending: PendingSequence, k: Key)
    requires QuarantineHeld(models, owners, records)
    requires m in models && r !in models[m].pendingSequences && k == pending.sequence.key
    requires k in records ==> !records[k].status.DestroyFailed?
    requires slot.pendingSequences == models[m].pendingSequences[r := pending] && slot.model.key == models[m].model.key
    requires OnlyChanges(k, owners, owners', records, records')
    requires k in owners' && owners'[k] == Owner(m, r)
    requires k in records' && records'[k] == SequenceRecord(slot.model.key, DestroyFailed(pending.attempts))
    ensures QuarantineHeld(models[m := slot], owners', records')
  {
    QuarantinedAddedLocated(models, owners, owners', records, records', m, slot, r, pending, k);
    QuarantinedAddedListed(models, owners, owners', records, records', m, slot, r, pending, k);
  }

  // A quarantined sequence whose destruction failed once more.
  lemma QuarantinedRetriedLocated(models: Models, owners: map<Key, Owner>,
                           records: map<Key, SequenceRecord>, records': map<Key, SequenceRecord>,
                           m: ModelId, slot: ModelSlot, r: RequestId, pending: PendingSequence, k: Key)
    requires QuarantineHeld(models, owners, records)
    requires m in models && r in models[m].pendingSequences && k == pending.sequence.key
    requires pending.sequence == models[m].pendingSequences[r].sequence
    requires slot.pendingSequences == models[m].pendingSequences[r := pending] && slot.model.key == models[m].model.key
    requires OnlyChanges(k, owners, owners, records, records')
    requires k in records' && records'[k] == SequenceRecord(slot.model.key, DestroyFailed(pending.attempts))
    ensures FailedLocated(models[m := slot], owners, records')
  {
  }

  lemma QuarantinedRetriedListed(models: Models, owners: map<Key, Owner>,
                           records: map<Key, SequenceRecord>, records': map<Key, SequenceRecord>,
                           m: ModelId, slot: ModelSlot, r: RequestId, pending: PendingSequence, k: Key)
    requires QuarantineHeld(models, owners, records)
    requires m in models && r in models[m].pendingSequences && k == pending.sequence.key
    requires pending.sequence == models[m].pendingSequences[r].sequence
    requires slot.pendingSequences == models[m].pendingSequences[r := pending] && slot.model.key == models[m].model.key
    requires OnlyChanges(k, owners, owners, records, records')
    requires k in records' && records'[k] == SequenceRecord(slot.model.key, DestroyFailed(pending.attempts))
    ensures PendingFailed(models[m := slot], owners, records')
  {
  }

  lemma QuarantinedRetried(models: Models, owners: map<Key, Owner>,
                           records: map<Key, SequenceRecord>, records': map<Key, SequenceRecord>,
                           m: ModelId, slot: ModelSlot, r: RequestId, pending: PendingSequence, k: Key)
    requires QuarantineHeld(models, owners, records)
    requires m in models && r in models[m].pendingSequences && k == pending.sequence.key
    requires pending.sequence == models[m].pendingSequences[r].sequence
    requires slot.pendingSequences == models[m].pendingSequences[r := pending] && slot.model.key == models[m].model.key
    requires OnlyChanges(k, owners, owners, records, records')
    requires k in records' && records'[k] == SequenceRecord(slot.model.key, DestroyFailed(pending.attempts))
    ensures QuarantineHeld(models[m := slot], owners, records')
  {
    QuarantinedRetriedLocated(models, owners, records, records', m, slot, r, pending, k);
    QuarantinedRetriedListed(models, owners, records, records', m, slot, r, pending, k);
  }

  lemma HeldModelRemoved(models: Models, owners: map<Key, Owner>, records: map<Key, SequenceRecord>, m: ModelId)
    requires LiveHeld(models, owners, records) && QuarantineHeld(models, owners, records)
    requires m in models && models[m].requests == map[] && models[m].pendingSequences == map[]
    ensures LiveHeld(models - {m}, owners, records) && QuarantineHeld(models - {m}, owners, records)
  {
  }

  lemma HeldModelAdded(models: Models, owners: map<Key, Owner>, records: map<Key, SequenceRecord>, m: ModelId, slot: ModelSlot)
    requires LiveHeld(models, owners, records) && QuarantineHeld(models, owners, records)
    requires m !in models && slot.requests == map[] && slot.pendingSequences == map[]
    ensures LiveHeld(models[m := slot], owners, records) && QuarantineHeld(models[m := slot], owners, records)
  {
  }

  // ----- Backend ownership of models -----

  lemma ModelKept(models: Models, pendingModels: map<ModelId, PendingModel>, owners: map<Key, ModelId>,
                  statuses: map<Key, ModelStatus>, m: ModelId, slot: ModelSlot)
    requires ModelsOwned(models, pendingModels, owners, statuses)
    requires m in models && slot.model.key == models[m].model.key
    ensures ModelsOwned(models[m := slot], pendingModels, owners, statuses)
  {
  }

  // A model that leaves the resident set: unloaded, or failing to unload.
  lemma ModelUnloaded(models: Models, pendingModels: map<ModelId, PendingModel>, owners: map<Key, ModelId>,
                      statuses: map<Key, ModelStatus>, m: ModelId, k: Key)
    requires ModelsOwned(models, pendingModels, owners, statuses)
    requires m in models && k == models[m].model.key
    ensures ModelsOwned(models - {m}, pendingModels, owners - {k}, statuses[k := Unloaded])
  {
  }

  lemma ModelQuarantined(models: Models, pendingModels: map<ModelId, PendingModel>, owners: map<Key, ModelId>,
                         statuses: map<Key, ModelStatus>, m: ModelId, pending: PendingModel, k: Key)
    requires ModelsOwned(models, pendingModels, owners, statuses)
    requires m in models && m !in pendingModels && k == models[m].model.key
    requires pending.model == models[m].model && pending.attempts == 1
    ensures ModelsOwned(models - {m}, pendingModels[m := pending], owners, statuses[k := UnloadFailed(1)])
  {
  }

  lemma ModelAdded(models: Models, pendingModels: map<ModelId, PendingModel>, owners: map<Key, ModelId>,
                   statuses: map<Key, ModelStatus>, m: ModelId, slot: ModelSlot, k: Key)
    requires ModelsOwned(models, pendingModels, owners, statuses)
    requires m !in models && m !in pendingModels && k !in statuses && slot.model.key == k
    ensures ModelsOwned(models[m := slot], pendingModels, owners[k := m], statuses[k := Resident])
  {
  }

  // A pending model that is new, or that failed once more.
  lemma PendingModelPut(models: Models, pendingModels: map<ModelId, PendingModel>, owners: map<Key, ModelId>,
                        statuses: map<Key, ModelStatus>, m: ModelId, pending: PendingModel, k: Key)
    requires ModelsOwned(models, pendingModels, owners, statuses)
    requires m !in models && pending.model.key == k
    requires if m in pendingModels then pendingModels[m].model.key == k else k !in statuses
    ensures ModelsOwned(models, pendingModels[m := pending], owners[k := m], statuses[k := UnloadFailed(pending.attempts)])
  {
  }

  lemma PendingModelDropped(models: Models, pendingModels: map<ModelId, PendingModel>, owners: map<Key, ModelId>,
                            statuses: map<Key, ModelStatus>, m: ModelId, k: Key)
    requires ModelsOwned(models, pendingModels, owners, statuses)
    requires m in pendingModels && k == pendingModels[m].model.key
    ensures ModelsOwned(models, pendingModels - {m}, owners - {k}, statuses[k := Unloaded])
  {
  }

  lemma ModelsAfterRejected(models: Models, pendingModels: map<ModelId, PendingModel>, owners: map<Key, ModelId>,
                            statuses: map<Key, ModelStatus>, k: Key)
    requires ModelsOwned(models, pendingModels, owners, statuses)
    requires k !in statuses
    ensures ModelsOwned(models, pendingModels, owners, statuses[k := Unloaded])
  {
  }
}
