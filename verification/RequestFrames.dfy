// What registry operations on other requests leave alone: the isolation between
// interleaved generations that the scheduler relies on.
module RequestFrames {
  import opened Common
  import opened Footprints
  import opened Lifecycle
  import opened RuntimeTypes
  import opened Backends
  import opened Registry
  import opened RegistrySteps
  import opened RegistryModelSteps
  import opened RegistryAdmission
  import opened RuntimeSpec

  // Request r was neither started nor executed, and not newly lost track of.
  ghost predicate Undisturbed(g: Registry, g': Registry, r: RequestId) {
    && (r in g'.requestIndex ==> r in g.requestIndex)
    && (forall request :: ActiveAt(g, r, request) && r in g'.requestIndex ==> ActiveAt(g', r, request))
    && (r in g'.pendingRequestIndex ==> r in g.requestIndex || r in g.pendingRequestIndex)
  }

  // Every request but r.
  ghost predicate OthersUndisturbed(g: Registry, g': Registry, r: RequestId) {
    forall x :: x != r ==> Undisturbed(g, g', x)
  }

  // The backend sequence of an active request.
  ghost function SequenceOf(g: Registry, r: RequestId): Sequence
    requires HasRequest(g, r)
  {
    RequestOf(g, r).sequence
  }

  lemma UndisturbedSequence(g: Registry, g': Registry, r: RequestId)
    requires Undisturbed(g, g', r)
    requires r in g.requestIndex ==> HasRequest(g, r)
    requires r in g'.requestIndex ==> HasRequest(g', r)
    ensures r in g'.requestIndex ==> r in g.requestIndex && SequenceOf(g', r) == SequenceOf(g, r)
  {
    if r in g'.requestIndex {
      assert ActiveAt(g, r, RequestOf(g, r));
    }
  }

  lemma QuietUndisturbs(g: Registry, g': Registry, r: RequestId)
    requires Quiet(g, g')
    ensures OthersUndisturbed(g, g', r) && Undisturbed(g, g', r) && g'.workspaces == g.workspaces
  {
    hide ActiveAt;
    forall x
      ensures Undisturbed(g, g', x)
    {
    }
  }

  lemma UndisturbedTransitive(a: Registry, b: Registry, c: Registry, r: RequestId)
    requires Undisturbed(a, b, r) && Undisturbed(b, c, r)
    ensures Undisturbed(a, c, r)
  {
    hide ActiveAt;
  }

  lemma OthersUndisturbedTransitive(a: Registry, b: Registry, c: Registry, r: RequestId)
    requires OthersUndisturbed(a, b, r) && OthersUndisturbed(b, c, r)
    ensures OthersUndisturbed(a, c, r)
  {
    hide Undisturbed;
    forall x | x != r
      ensures Undisturbed(a, c, x)
    {
      UndisturbedTransitive(a, b, c, x);
    }
  }

  lemma SameIndices(g: Registry, g': Registry, r: RequestId)
    requires g'.requestIndex == g.requestIndex && g'.pendingRequestIndex == g.pendingRequestIndex
    requires forall m :: m in g.models ==> m in g'.models
    requires forall m, x :: m in g.models && x in g.models[m].requests && x != r ==>
               x in g'.models[m].requests && g'.models[m].requests[x] == g.models[m].requests[x]
    ensures OthersUndisturbed(g, g', r)
  {
  }

  lemma UseSequenceIsolates(g: Registry, r: RequestId, sequence: Sequence, usage: Usage)
    requires HasRequest(g, r)
    ensures var used := UseSequence(g, r, sequence, usage);
            && HasRequest(used, r) && r in used.requestIndex && SequenceOf(used, r) == sequence
            && OthersUndisturbed(g, used, r) && used.workspaces == g.workspaces
            && used.requestIndex == g.requestIndex && used.pendingRequestIndex == g.pendingRequestIndex
            && used.pendingModels == g.pendingModels
            && SlotOf(used, r).lifecycle == SlotOf(g, r).lifecycle && |SlotOf(used, r).requests| == |SlotOf(g, r).requests|
  {
    hide OthersUndisturbed;
    var used := UseSequence(g, r, sequence, usage);
    SameIndices(g, used, r);
    assert SlotOf(used, r).requests.Keys == SlotOf(g, r).requests.Keys;
    assert |SlotOf(used, r).requests.Keys| == |SlotOf(g, r).requests|;
  }

  // The ways a request can leave the registry, as its caller sees them.
  ghost predicate RemovalReported(g: Registry, next: Registry, r: RequestId, result: Outcome<()>) {
    && r !in next.requestIndex
    && (r !in g.requestIndex ==> result == Err(RequestNotActive(r)) && next == g)
    && (r in g.requestIndex && result.Err? ==>
          || (result.error.RetainsResource() && (r in next.pendingRequestIndex || ModelNewlyQuarantined(g, next)))
          || result.error == LifecycleFailed(InvalidTransition))
    && (r in g.requestIndex && result.Ok? ==> next.pendingRequestIndex == g.pendingRequestIndex && next.pendingModels == g.pendingModels)
  }

  ghost predicate ModelNewlyQuarantined(g: Registry, next: Registry) {
    exists m :: m in next.pendingModels && m !in g.pendingModels
  }

  // A removal that fails has left its sequence or its model in quarantine.
  lemma RemovalRetains(g: Registry, limits: Limits, r: RequestId, operation: RuntimeOperation,
                       failure: FailureClass, destroyed: bool, unloaded: bool)
    requires HasRequest(g, r) && g.requestIndex[r] !in g.pendingModels
    ensures var e := Remove(g, limits, r, operation, failure, destroyed, unloaded);
            && (e.result.Err? && e.result.error.RetainsResource() ==> r in e.next.pendingRequestIndex || ModelNewlyQuarantined(g, e.next))
            && (e.result.Ok? ==> e.next.pendingRequestIndex == g.pendingRequestIndex && e.next.pendingModels == g.pendingModels)
  {
    hide DropRequest, QuarantineRequest, Release, AfterFinish, Quiet, OthersKept, OneLess;
    var m := g.requestIndex[r];
    RemoveIsQuiet(g, limits, r, operation, failure, destroyed, unloaded);
    OneLessAfterRemoval(g, r, CleanupReport(operation, failure, SequenceDestruction, SequenceFailure));
    ReleaseRetains(DropRequest(g, r), limits, m, operation, failure, unloaded);
  }

  lemma ReleaseRetains(g: Registry, limits: Limits, m: ModelId, operation: RuntimeOperation, failure: FailureClass, unloaded: bool)
    ensures var e := Release(g, limits, m, operation, failure, unloaded);
            && (e.result.Err? && e.result.error.RetainsResource() ==> m in e.next.pendingModels)
            && (e.result.Ok? ==> e.next.pendingModels == g.pendingModels)
  {
    hide Minus;
  }

  lemma RemovalIsolates(g: Registry, limits: Limits, r: RequestId, operation: RuntimeOperation,
                        failure: FailureClass, destroyed: bool, unloaded: bool)
    requires r in g.requestIndex ==> HasRequest(g, r) && SlotOf(g, r).lifecycle.ActiveCount() == |SlotOf(g, r).requests|
    requires r in g.requestIndex ==> g.requestIndex[r] !in g.pendingModels
    ensures var e := Remove(g, limits, r, operation, failure, destroyed, unloaded);
            && RemovalReported(g, e.next, r, e.result)
            && OthersUndisturbed(g, e.next, r) && Undisturbed(g, e.next, r)
            && e.next.workspaces == g.workspaces
  {
    var e := Remove(g, limits, r, operation, failure, destroyed, unloaded);
    if r in g.requestIndex {
      RemoveIsQuiet(g, limits, r, operation, failure, destroyed, unloaded);
      RemoveOnModel(g, limits, r, operation, failure, destroyed, unloaded);
      RemovalRetains(g, limits, r, operation, failure, destroyed, unloaded);
    } else {
      QuietReflexive(g, 0);
    }
    QuietUndisturbs(g, e.next, r);
    hide Remove, Quiet, OthersKept, OthersUndisturbed, Undisturbed, HasRequest, ModelNewlyQuarantined;
  }

  // What one backend execution did, as its caller sees it: the answer of the checked
  // call, or the removal's own failure, and the request gone unless it may go on.
  ghost predicate CallConcluded(g: Registry, r: RequestId, checked: Checked, next: Registry, result: Outcome<Answer>) {
    match checked.answer
    case Ok(Ready(_, _, _)) =>
      && result == Ok(checked.answer.value) && HasRequest(next, r) && SequenceOf(next, r) == checked.sequence
      && next.requestIndex == g.requestIndex && next.pendingModels == g.pendingModels
    case Ok(Ended(reason)) =>
      r !in next.requestIndex && (result == Ok(Ended(reason)) || result == Err(LifecycleFailed(InvalidTransition)))
    case Err(error) =>
      r !in next.requestIndex && (result == Err(SequenceFailed(error)) || result == Err(LifecycleFailed(InvalidTransition)))
  }

  lemma ExecutionIsolates(g: Registry, limits: Limits, r: RequestId, checked: Checked, usage: Usage,
                          operation: RuntimeOperation, destroyed: bool, unloaded: bool)
    requires HasRequest(g, r) && SlotOf(g, r).lifecycle.ActiveCount() == |SlotOf(g, r).requests|
    requires g.requestIndex[r] !in g.pendingModels
    ensures var e := Execute(g, limits, r, checked, usage, operation, destroyed, unloaded);
            && CallConcluded(g, r, checked, e.next, e.result)
            && OthersUndisturbed(g, e.next, r) && e.next.workspaces == g.workspaces
  {
    hide Remove, HasRequest, Undisturbed, OthersUndisturbed, SlotOf, UseSequence, SequenceOf;
    var used := UseSequence(g, r, checked.sequence, usage);
    UseSequenceIsolates(g, r, checked.sequence, usage);
    if checked.answer.Ok? && checked.answer.value.Ended? {
      var reason := checked.answer.value.reason;
      RemovalIsolates(used, limits, r, FinishOperation(reason), FinishFailureClass(reason), destroyed, unloaded);
      OthersUndisturbedTransitive(g, used, Remove(used, limits, r, FinishOperation(reason), FinishFailureClass(reason), destroyed, unloaded).next, r);
    } else if checked.answer.Err? {
      RemovalIsolates(used, limits, r, operation, SequenceFailure, destroyed, unloaded);
      OthersUndisturbedTransitive(g, used, Remove(used, limits, r, operation, SequenceFailure, destroyed, unloaded).next, r);
    }
  }

  // An admission touches no request but the one it starts or rejects.
  lemma StartIsolates(g: Registry, limits: Limits, call: StartCall, next: Registry, result: Outcome<StartReceipt>)
    requires StartOutcome(g, limits, call, next, result)
    ensures OthersUndisturbed(g, next, call.request)
    ensures next.workspaces == if result.Ok? && call.expectedLogits.Some? then g.workspaces[call.request := call.workspace] else g.workspaces
  {
    if result.Ok? {
      AddedIsolates(g, limits, call, next, result.value);
    } else if next != g {
      RejectedIsolates(g, limits, call, next);
    } else {
      QuietReflexive(g, 0);
      QuietUndisturbs(g, g, call.request);
    }
    hide Admitted, RejectedAndKept, OthersUndisturbed, Quiet;
  }

  lemma AddedIsolates(g: Registry, limits: Limits, call: StartCall, next: Registry, receipt: StartReceipt)
    requires Admitted(g, limits, call, next, receipt)
    ensures OthersUndisturbed(g, next, call.request)
    ensures next.workspaces == if call.expectedLogits.Some? then g.workspaces[call.request := call.workspace] else g.workspaces
  {
    hide Affordable, Plus, AfterStart, RoomForRequest;
  }

  lemma RejectedIsolates(g: Registry, limits: Limits, call: StartCall, next: Registry)
    requires RejectedAndKept(g, limits, call, next)
    ensures OthersUndisturbed(g, next, call.request) && next.workspaces == g.workspaces
  {
    hide Affordable, Plus, RoomForRequest;
  }

  lemma LoadIsolates(g: Registry, limits: Limits, m: ModelId, next: Registry, result: Outcome<LoadReceipt>, r: RequestId)
    requires LoadOutcome(g, limits, m, next, result)
    ensures OthersUndisturbed(g, next, r) && Undisturbed(g, next, r) && next.workspaces == g.workspaces
  {
    hide Plus, FitsU64, WithinBudget;
  }
}
