// Concrete registries on which removing a request, polling for cleanup and shutting down
// report a lifecycle error, although every consistency condition holds.
module Witnesses {
  import opened Common
  import opened Footprints
  import opened Lifecycle
  import opened RuntimeTypes
  import opened BackendProtocol
  import opened Backends
  import opened Registry
  import opened RegistrySteps
  import opened RuntimeSpec
  import opened ShutdownSpec

  // One resident model, with id and key 0, that serves request 1 while the sequence of
  // request 0 is quarantined after one failed destruction. Sequence ids and backend
  // keys are the request ids, and every footprint is zero.
  ghost function SequenceNamed(r: RequestId): Sequence {
    Sequence(r, r, 1, Empty, 0, [])
  }

  ghost function ActiveOne(): RequestSlot {
    RequestSlot(SequenceNamed(1), Zero(), Zero(), Usage(0, 0))
  }

  ghost function QuarantinedZero(): PendingSequence {
    PendingSequence(0, 0, SequenceNamed(0), Zero(), CleanupReport(Completion, CompletionClass, SequenceDestruction, SequenceFailure), 1)
  }

  ghost function PairSlot(lifecycle: State): ModelSlot {
    ModelSlot(ModelHandle(0, 1), Descriptor(Metadata(1, 0), 2), lifecycle, Model(0, ModelHandle(0, 1), Metadata(1, 0)), Zero(), Zero(),
              map[1 := ActiveOne()], map[0 := QuarantinedZero()], true, 0)
  }

  ghost function Pair(lifecycle: State): Registry {
    Registry(map[0 := PairSlot(lifecycle)], map[],
             map[1 := 0], map[1 := 1], map[0 := 0], map[0 := 0],
             map[0 := 1], Zero(), Zero(), 1, 0, 1,
             map[], map[0 := Owner(0, 0), 1 := Owner(0, 1)], map[0 := 0], {ModelHandle(0, 1)})
  }

  ghost function PairWorld(): World {
    World(map[0 := Resident], map[0 := SequenceRecord(0, DestroyFailed(1)), 1 := SequenceRecord(0, Live)])
  }

  function TwoAttempts(): Limits {
    Limits(1, 2, Budget(0, 0), 2)
  }

  lemma PairSums(lifecycle: State)
    ensures SlotTotal(PairSlot(lifecycle)) == Zero() && SlotBackend(PairSlot(lifecycle)) == Zero()
  {
    SumOne(1, ActiveOne(), WholeRequest);
    SumOne(1, ActiveOne(), BackendPart);
    SumOne(0, QuarantinedZero(), PendingPart);
    hide Sum;
  }

  lemma SumOne<V>(k: nat, v: V, f: V -> Footprint)
    ensures Sum<nat, V>(map[k := v], f) == f(v)
  {
    hide Sum;
    var none: map<nat, V> := map[];
    SumEmpty<nat, V>(f);
    SumInsert(none, f, k, v);
    assert none[k := v] == map[k := v];
    PlusZero(f(v));
  }

  lemma PlusZero(f: Footprint)
    ensures Plus(Zero(), f) == f
  {
  }

  lemma CountOne<V>(k: nat, v: V)
    ensures |map[k := v]| == 1
  {
    assert map[k := v].Keys == {k};
    assert |map[k := v].Keys| == |{k}| == 1;
  }

  lemma PairShaped(lifecycle: State)
    requires lifecycle == Active(1) || lifecycle == Cancelling(1, ModelUnload)
    ensures SlotShaped(0, PairSlot(lifecycle), TwoAttempts())
  {
    CountOne(1, ActiveOne());
    CountOne(0, QuarantinedZero());
  }

  lemma PairModels(lifecycle: State)
    requires lifecycle == Active(1) || lifecycle == Cancelling(1, ModelUnload)
    ensures ModelsConsistent(Pair(lifecycle), TwoAttempts())
  {
    PairShaped(lifecycle);
    PairSums(lifecycle);
    CountOne(0, PairSlot(lifecycle));
    hide SlotShaped, SlotTotal, PairSlot;
    PairHandle(lifecycle);
  }

  lemma PairHandle(lifecycle: State)
    ensures PairSlot(lifecycle).handle == ModelHandle(0, 1) && PairSlot(lifecycle).reserved == Zero()
  {
  }

  lemma PairIndices(lifecycle: State)
    ensures IndicesConsistent(Pair(lifecycle), TwoAttempts())
  {
    hide PairSlot, RequestsIndexed, SequencesIndexed, PendingIndexed, PendingSequencesIndexed, IndicesConsistent, Pair;
    PairActive(lifecycle);
    PairQuarantined(lifecycle);
    PairIndexed(lifecycle);
  }

  lemma PairIndexed(lifecycle: State)
    requires RequestsIndexed(map[0 := PairSlot(lifecycle)], map[1 := 0])
    requires SequencesIndexed(map[0 := PairSlot(lifecycle)], map[1 := 0], map[1 := 1])
    requires PendingIndexed(map[0 := PairSlot(lifecycle)], map[0 := 0])
    requires PendingSequencesIndexed(map[0 := PairSlot(lifecycle)], map[0 := 0], map[0 := 0])
    ensures IndicesConsistent(Pair(lifecycle), TwoAttempts())
  {
    hide PairSlot, RequestsIndexed, SequencesIndexed, PendingIndexed, PendingSequencesIndexed;
    CountOne(1, 0);
    CountOne(0, 0);
  }

  lemma PairActive(lifecycle: State)
    ensures RequestsIndexed(map[0 := PairSlot(lifecycle)], map[1 := 0])
    ensures SequencesIndexed(map[0 := PairSlot(lifecycle)], map[1 := 0], map[1 := 1])
  {
  }

  lemma PairQuarantined(lifecycle: State)
    ensures PendingIndexed(map[0 := PairSlot(lifecycle)], map[0 := 0])
    ensures PendingSequencesIndexed(map[0 := PairSlot(lifecycle)], map[0 := 0], map[0 := 0])
  {
  }

  lemma PairLedger(lifecycle: State)
    ensures LedgerConsistent(Pair(lifecycle), TwoAttempts())
  {
    PairSums(lifecycle);
    hide Sum, SlotBackend, PairSlot;
    SumOne(0, PairSlot(lifecycle), SlotBackend);
    SumEmpty<ModelId, PendingModel>(PendingModelPart);
    SumEmpty<RequestId, Footprint>(Identity);
  }

  lemma PairOwned(lifecycle: State)
    ensures OwnershipConsistent(Pair(lifecycle), PairWorld())
  {
    hide LiveHeld, QuarantineHeld;
    PairHeld(lifecycle);
  }

  lemma PairHeld(lifecycle: State)
    ensures LiveHeld(map[0 := PairSlot(lifecycle)], map[0 := Owner(0, 0), 1 := Owner(0, 1)], PairWorld().sequences)
    ensures QuarantineHeld(map[0 := PairSlot(lifecycle)], map[0 := Owner(0, 0), 1 := Owner(0, 1)], PairWorld().sequences)
  {
  }

  // The registry is consistent while the model serves and while it is being cancelled.
  lemma PairConsistent(lifecycle: State)
    requires lifecycle == Active(1) || lifecycle == Cancelling(1, ModelUnload)
    ensures Consistent(Pair(lifecycle), TwoAttempts(), PairWorld())
    ensures HasRequest(Pair(lifecycle), 1) && SlotShaped(0, SlotOf(Pair(lifecycle), 1), TwoAttempts())
    ensures |SlotOf(Pair(lifecycle), 1).requests| == 1 && RequestOf(Pair(lifecycle), 1).sequence.key == 1
    ensures 1 !in SlotOf(Pair(lifecycle), 1).pendingSequences
  {
    PairShaped(lifecycle);
    CountOne(1, ActiveOne());
    hide ModelsConsistent, IndicesConsistent, LedgerConsistent, OwnershipConsistent, SlotShaped;
    PairModels(lifecycle);
    PairIndices(lifecycle);
    PairLedger(lifecycle);
    PairOwned(lifecycle);
  }

  // remove_request: a model being cancelled loses its last request while another
  // sequence is quarantined. The sequence is destroyed, and yet the answer is an error.
  lemma RemovalFails(operation: RuntimeOperation, failure: FailureClass, unloaded: bool)
    ensures var g := Pair(Cancelling(1, ModelUnload));
            && Consistent(g, TwoAttempts(), PairWorld()) && HasRequest(g, 1)
            && var e := Remove(g, TwoAttempts(), 1, operation, failure, true, unloaded);
               e.result == Err(LifecycleFailed(InvalidTransition)) && 1 !in e.next.requestIndex
  {
    hide Consistent, SlotShaped, Remove;
    var g := Pair(Cancelling(1, ModelUnload));
    PairConsistent(Cancelling(1, ModelUnload));
    RemoveRejectedExactly(g, TwoAttempts(), 1, operation, failure, true, unloaded);
    RemoveIsQuiet(g, TwoAttempts(), 1, operation, failure, true, unloaded);
  }

  // poll_cleanup: had the destruction of request 1 failed too, the first of the two
  // quarantined sequences is released by the next poll, and yet the answer is an error.
  lemma PollFails(unloaded: bool)
    ensures var before := Pair(Cancelling(1, ModelUnload));
            && HasRequest(before, 1)
            && var g := Remove(before, TwoAttempts(), 1, Cancellation, CancellationClass, false, true).next;
               && Consistent(g, TwoAttempts(), Apply(PairWorld(), Destroy(1, false)))
               && NextCleanup(g, TwoAttempts(), RetryOf(0, 0)) && HasQuarantined(g, 0, 0)
               && CleanupEffect(g, TwoAttempts(), RetryOf(0, 0), true, unloaded).result.Err?
  {
    hide Consistent, SlotShaped, CleanupEffect, Apply, Pair, HasRequest, Remove, QuarantineRequest, NextCleanup, HasQuarantined;
    var before := Pair(Cancelling(1, ModelUnload));
    PairConsistent(Cancelling(1, ModelUnload));
    var report := CleanupReport(Cancellation, CancellationClass, SequenceDestruction, SequenceFailure);
    var g := QuarantineRequest(before, 1, report);
    FailedRemovalQuarantines(before, TwoAttempts(), 1, Cancellation, CancellationClass);
    QuarantineRequestKeeps(before, TwoAttempts(), PairWorld(), 1, report);
    BothQuarantined(report);
    PollRejectedExactly(g, TwoAttempts(), RetryOf(0, 0), true, unloaded);
  }

  lemma FailedRemovalQuarantines(g: Registry, limits: Limits, r: RequestId, operation: RuntimeOperation, failure: FailureClass)
    requires HasRequest(g, r)
    ensures Remove(g, limits, r, operation, failure, false, true).next
            == QuarantineRequest(g, r, CleanupReport(operation, failure, SequenceDestruction, SequenceFailure))
  {
    hide QuarantineRequest;
  }

  lemma BothQuarantined(report: CleanupReport)
    requires HasRequest(Pair(Cancelling(1, ModelUnload)), 1)
    requires SlotShaped(0, SlotOf(Pair(Cancelling(1, ModelUnload)), 1), TwoAttempts())
    ensures var g := QuarantineRequest(Pair(Cancelling(1, ModelUnload)), 1, report);
            && NextCleanup(g, TwoAttempts(), RetryOf(0, 0)) && HasQuarantined(g, 0, 0)
            && SlotShaped(0, g.models[0], TwoAttempts())
            && g.models[0].lifecycle == Unloading && |g.models[0].pendingSequences| == 2
  {
    QuarantineRequestShape(0, PairSlot(Cancelling(1, ModelUnload)), 1, report, TwoAttempts());
    CountOne(0, QuarantinedZero());
    WithNewKey(map[0 := QuarantinedZero()], 1, Quarantined(ActiveOne(), 1, report));
    hide SlotShaped;
  }

  lemma RejectionJudged(result: Outcome<()>)
    requires result == Err(LifecycleFailed(InvalidTransition))
    ensures Judge(result) == ShutdownSpec.Rejected
  {
  }

  lemma AskedPair()
    ensures HasRequest(Pair(Cancelling(1, ModelUnload)), 1) && Asked(Pair(Active(1)), 0) == Pair(Cancelling(1, ModelUnload))
    ensures Pair(Active(1)).models.Keys == {0}
    ensures Leads(TwoAttempts(), Pair(Active(1)), {0}, [AskToUnload(0)], Pair(Cancelling(1, ModelUnload)), {0}, Going)
    ensures var next := Remove(Pair(Cancelling(1, ModelUnload)), TwoAttempts(), 1, ShutdownOperation, ShutdownClass, true, true);
            Leads(TwoAttempts(), Pair(Cancelling(1, ModelUnload)), {0}, [CancelNext(0, 1, true, true)], next.next, {0}, Judge(next.result))
  {
    hide Leads, Remove, Judge;
    AskLeads(TwoAttempts(), Pair(Active(1)), {0}, 0);
    CancelLeads(TwoAttempts(), Pair(Cancelling(1, ModelUnload)), {0}, 0, 1, true, true);
  }

  // shutdown: the model still serves request 1 while request 0 is quarantined. The
  // backend does everything it is asked to, and yet shutdown stops with an error.
  lemma ShutdownFails()
    ensures Consistent(Pair(Active(1)), TwoAttempts(), PairWorld())
    ensures var run := Ran(Start(Pair(Active(1))), TwoAttempts(), [AskToUnload(0), CancelNext(0, 1, true, true)]);
            run.Some? && run.value.progress == ShutdownSpec.Rejected
  {
    hide Consistent, SlotShaped, Ran, Remove, Asked, Pair, HasRequest;
    var asked := Pair(Cancelling(1, ModelUnload));
    PairConsistent(Active(1));
    AskedPair();
    RemovalFails(ShutdownOperation, ShutdownClass, true);
    RejectionJudged(Remove(asked, TwoAttempts(), 1, ShutdownOperation, ShutdownClass, true, true).result);
    RanThen(Start(Pair(Active(1))), TwoAttempts(), [AskToUnload(0)], [CancelNext(0, 1, true, true)]);
    assert [AskToUnload(0)] + [CancelNext(0, 1, true, true)] == [AskToUnload(0), CancelNext(0, 1, true, true)];
  }
}
