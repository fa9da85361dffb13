// What the registry's compound operations do to its value, as functions of the
// state before and of the backend's answers; Runtime.dfy proves its methods
// against them, and the lemmas here say what callers can rely on.
module RuntimeSpec {
  import opened Common
  import opened Footprints
  import opened Lifecycle
  import opened RuntimeTypes
  import opened BackendProtocol
  import opened Backends
  import opened Registry
  import opened RegistrySteps
  import opened RegistryModelSteps
  import opened RegistryAdmission

  datatype Effect<T> = Effect(next: Registry, result: Outcome<T>)

  // release_model_with_primary; `unloaded` is prepare_unload's answer.
  ghost function Release(g: Registry, limits: Limits, m: ModelId, operation: RuntimeOperation,
                         failure: FailureClass, unloaded: bool): Effect<()>
  {
    if m !in g.models then Effect(g, Err(ModelNotLoaded(m)))
    else if !Releasable(g, m) || g.models[m].lifecycle != Unloading then
      Effect(g, Err(LifecycleFailed(InvalidTransition)))
    else if unloaded then Effect(DropModel(g, m), Ok(()))
    else
      var report := CleanupReport(operation, failure, ModelUnloading, SynchronizationFailure);
      Effect(QuarantineModel(g, m, report), Err(RetentionError(RetryState(ModelResource(m), report, 1, limits.maximumAttempts))))
  }

  // The backend calls one release makes.
  ghost function ReleaseCalls(g: Registry, m: ModelId, unloaded: bool): seq<Event> {
    if m in g.models && Releasable(g, m) && g.models[m].lifecycle == Unloading
    then [PrepareUnload(g.models[m].model.key, unloaded)]
    else []
  }

  // remove_request; `destroyed` and `unloaded` are the backend's answers.
  ghost function Remove(g: Registry, limits: Limits, r: RequestId, operation: RuntimeOperation,
                        failure: FailureClass, destroyed: bool, unloaded: bool): Effect<()>
    requires r in g.requestIndex ==> HasRequest(g, r)
  {
    if r !in g.requestIndex then Effect(g, Err(RequestNotActive(r)))
    else if !destroyed then
      var report := CleanupReport(operation, failure, SequenceDestruction, SequenceFailure);
      var resource := SequenceResource(g.requestIndex[r], r, RequestOf(g, r).sequence.id);
      Effect(QuarantineRequest(g, r, report), Err(RetentionError(RetryState(resource, report, 1, limits.maximumAttempts))))
    else if AfterFinish(SlotOf(g, r).lifecycle).result == Ok(ReleaseModel) then
      Release(DropRequest(g, r), limits, g.requestIndex[r], operation, failure, unloaded)
    else Effect(DropRequest(g, r), Ok(()))
  }

  ghost function RemoveCalls(g: Registry, r: RequestId, destroyed: bool, unloaded: bool): seq<Event>
    requires r in g.requestIndex ==> HasRequest(g, r)
  {
    if r !in g.requestIndex then []
    else if !destroyed then [Destroy(RequestOf(g, r).sequence.key, false)]
    else if AfterFinish(SlotOf(g, r).lifecycle).result == Ok(ReleaseModel) then
      [Destroy(RequestOf(g, r).sequence.key, true)] + ReleaseCalls(DropRequest(g, r), g.requestIndex[r], unloaded)
    else [Destroy(RequestOf(g, r).sequence.key, true)]
  }

  // remove_request, for every answer of the backend.
  ghost predicate RemovalMeets(g: Registry, limits: Limits, r: RequestId, operation: RuntimeOperation, failure: FailureClass,
                               destroyed: bool, unloaded: bool, next: Registry, result: Outcome<()>, before: seq<Event>, after: seq<Event>) {
    && (r in g.requestIndex ==> HasRequest(g, r))
    && Effect(next, result) == Remove(g, limits, r, operation, failure, destroyed, unloaded)
    && after == before + RemoveCalls(g, r, destroyed, unloaded)
  }

  // ----- What removal means -----

  lemma DropRequestIsQuiet(g: Registry, r: RequestId)
    requires HasRequest(g, r)
    ensures Quiet(g, DropRequest(g, r)) && OthersKept(g, DropRequest(g, r), g.requestIndex[r])
  {
    hide Minus, AfterFinish, WholeRequest;
  }

  lemma QuarantineRequestIsQuiet(g: Registry, r: RequestId, report: CleanupReport)
    requires HasRequest(g, r)
    ensures Quiet(g, QuarantineRequest(g, r, report)) && OthersKept(g, QuarantineRequest(g, r, report), g.requestIndex[r])
  {
    hide Minus, AfterFinish;
  }

  lemma DropModelIsQuiet(g: Registry, m: ModelId)
    requires Releasable(g, m)
    ensures Quiet(g, DropModel(g, m)) && OthersKept(g, DropModel(g, m), m)
  {
    hide Minus;
  }

  lemma QuarantineModelIsQuiet(g: Registry, m: ModelId, report: CleanupReport)
    requires Releasable(g, m)
    ensures Quiet(g, QuarantineModel(g, m, report)) && OthersKept(g, QuarantineModel(g, m, report), m)
  {
  }

  lemma ReleaseIsQuiet(g: Registry, limits: Limits, m: ModelId, operation: RuntimeOperation, failure: FailureClass, unloaded: bool)
    ensures var next := Release(g, limits, m, operation, failure, unloaded).next;
            && Quiet(g, next) && OthersKept(g, next, m)
            && next.requestIndex == g.requestIndex && next.pendingRequestIndex == g.pendingRequestIndex
  {
    QuietReflexive(g, m);
    hide Quiet, OthersKept, Minus;
    if Releasable(g, m) {
      DropModelIsQuiet(g, m);
      QuarantineModelIsQuiet(g, m, CleanupReport(operation, failure, ModelUnloading, SynchronizationFailure));
    }
  }

  lemma QuietReflexive(g: Registry, m: ModelId)
    ensures Quiet(g, g) && OthersKept(g, g, m)
  {
  }

  lemma QuietTransitive(a: Registry, b: Registry, c: Registry)
    requires Quiet(a, b) && Quiet(b, c)
    ensures Quiet(a, c)
  {
  }

  lemma OthersKeptTransitive(a: Registry, b: Registry, c: Registry, m: ModelId)
    requires OthersKept(a, b, m) && OthersKept(b, c, m)
    ensures OthersKept(a, c, m)
  {
  }

  // Removal touches one request: every other active request keeps its slot, r is never
  // active afterwards, and it is quarantined exactly when its destruction failed.
  lemma RemoveIsQuiet(g: Registry, limits: Limits, r: RequestId, operation: RuntimeOperation,
                      failure: FailureClass, destroyed: bool, unloaded: bool)
    requires HasRequest(g, r)
    ensures var next := Remove(g, limits, r, operation, failure, destroyed, unloaded).next;
            && Quiet(g, next)
            && OthersKept(g, next, g.requestIndex[r])
            && next.requestIndex == g.requestIndex - {r}
            && next.pendingRequestIndex == if destroyed then g.pendingRequestIndex else g.pendingRequestIndex[r := g.requestIndex[r]]
  {
    hide Quiet, OthersKept, Release, Minus, AfterFinish, SlotWithoutRequest, SlotWithQuarantined;
    var m := g.requestIndex[r];
    var dropped := DropRequest(g, r);
    DropRequestIsQuiet(g, r);
    QuarantineRequestIsQuiet(g, r, CleanupReport(operation, failure, SequenceDestruction, SequenceFailure));
    ReleaseIsQuiet(dropped, limits, m, operation, failure, unloaded);
    QuietTransitive(g, dropped, Release(dropped, limits, m, operation, failure, unloaded).next);
    OthersKeptTransitive(g, dropped, Release(dropped, limits, m, operation, failure, unloaded).next, m);
  }

  // Exactly when remove_request reports InvalidTransition: the request is gone, but it
  // was the last one of a model being unloaded that still has quarantined sequences.
  lemma RemoveRejectedExactly(g: Registry, limits: Limits, r: RequestId, operation: RuntimeOperation,
                              failure: FailureClass, destroyed: bool, unloaded: bool)
    requires HasRequest(g, r) && SlotShaped(g.requestIndex[r], SlotOf(g, r), limits)
    ensures var slot := SlotOf(g, r);
            Remove(g, limits, r, operation, failure, destroyed, unloaded).result == Err(LifecycleFailed(InvalidTransition))
            <==> destroyed && !slot.lifecycle.Accepting() && |slot.requests| == 1 && slot.pendingSequences != map[]
  {
    hide Remove, RemoveCalls, DropRequest, QuarantineRequest, DropModel, QuarantineModel, ReleaseCalls, AfterFinish;
    var slot := SlotOf(g, r);
    RemoveCases(g, limits, r, operation, failure, destroyed, unloaded);
    DroppedSlot(g, r);
    FinishIsExact(slot.lifecycle);
    WithoutKey(slot.requests, r);
  }

  lemma ReleaseOnModel(g: Registry, limits: Limits, m: ModelId, operation: RuntimeOperation, failure: FailureClass, unloaded: bool)
    requires m in g.models
    ensures var e := Release(g, limits, m, operation, failure, unloaded);
            && (m in e.next.models ==> e.next == g && e.result == Err(LifecycleFailed(InvalidTransition)))
            && (m !in e.next.models ==> e.result.Ok? || e.result.error.RetainsResource())
            && (e.result.Ok? ==> e.next.pendingModels == g.pendingModels && m !in e.next.models)
  {
    hide Minus;
  }

  // A slot after one of its requests left, with the same unload bookkeeping.
  ghost predicate OneLess(before: ModelSlot, slot: ModelSlot, r: RequestId) {
    && slot.requests == before.requests - {r}
    && |slot.requests| == |before.requests| - 1
    && slot.cancelledDuringUnload == before.cancelledDuringUnload
    && (!before.lifecycle.Accepting() ==> !slot.lifecycle.Accepting())
  }

  lemma OneLessAfterRemoval(g: Registry, r: RequestId, report: CleanupReport)
    requires HasRequest(g, r)
    ensures var m := g.requestIndex[r];
            && m in DropRequest(g, r).models && OneLess(g.models[m], DropRequest(g, r).models[m], r)
            && DropRequest(g, r).pendingModels == g.pendingModels
            && m in QuarantineRequest(g, r, report).models && OneLess(g.models[m], QuarantineRequest(g, r, report).models[m], r)
  {
    hide Minus, WholeRequest, Quarantined;
    WithoutKey(SlotOf(g, r).requests, r);
  }

  // What one removal leaves of the model that held the request.
  lemma RemoveOnModel(g: Registry, limits: Limits, r: RequestId, operation: RuntimeOperation,
                      failure: FailureClass, destroyed: bool, unloaded: bool)
    requires HasRequest(g, r) && SlotOf(g, r).lifecycle.ActiveCount() == |SlotOf(g, r).requests|
    ensures var m, e := g.requestIndex[r], Remove(g, limits, r, operation, failure, destroyed, unloaded);
            && (m in e.next.models ==> OneLess(g.models[m], e.next.models[m], r))
            && (m !in e.next.models ==> |g.models[m].requests| == 1)
            && (e.result.Err? ==> e.result.error.RetainsResource() || e.result.error == LifecycleFailed(InvalidTransition))
            && (e.result.Ok? ==> e.next.pendingModels == g.pendingModels)
  {
    hide AfterFinish, Release, DropRequest, QuarantineRequest, OneLess;
    OneLessAfterRemoval(g, r, CleanupReport(operation, failure, SequenceDestruction, SequenceFailure));
    FinishIsExact(SlotOf(g, r).lifecycle);
    ReleaseOnModel(DropRequest(g, r), limits, g.requestIndex[r], operation, failure, unloaded);
  }

  // ----- Release without failures -----

  // Nothing of model m waits for another release attempt.
  ghost predicate CleanModel(g: Registry, m: ModelId) {
    m !in g.pendingModels && (m in g.models ==> g.models[m].pendingSequences == map[])
  }

  // If the backend releases what it is asked to, a removal from a model without
  // quarantine succeeds and leaves no quarantine.
  lemma RemoveFlawless(g: Registry, limits: Limits, r: RequestId, operation: RuntimeOperation,
                       failure: FailureClass, destroyed: bool, unloaded: bool, log: seq<Event>)
    requires HasRequest(g, r) && SlotOf(g, r).lifecycle.ActiveCount() == |SlotOf(g, r).requests|
    ensures var e, calls := Remove(g, limits, r, operation, failure, destroyed, unloaded), RemoveCalls(g, r, destroyed, unloaded);
            && log <= log + calls
            && (Flawless(log, log + calls) && CleanModel(g, g.requestIndex[r]) ==> e.result.Ok? && CleanModel(e.next, g.requestIndex[r]))
  {
    hide Remove, RemoveCalls, DropRequest, Release, ReleaseCalls, AfterFinish, Flawless, Releasable, CleanModel;
    RemoveCases(g, limits, r, operation, failure, destroyed, unloaded);
    var m, calls := g.requestIndex[r], RemoveCalls(g, r, destroyed, unloaded);
    FirstEffective(log, calls);
    if Flawless(log, log + calls) && CleanModel(g, m) {
      DroppedClean(g, r);
      if AfterFinish(SlotOf(g, r).lifecycle).result == Ok(ReleaseModel) {
        ReleaseAfterDestroy(DropRequest(g, r), limits, m, operation, failure, unloaded, log, Destroy(RequestOf(g, r).sequence.key, true));
      }
    }
  }

  lemma ReleaseAfterDestroy(g: Registry, limits: Limits, m: ModelId, operation: RuntimeOperation, failure: FailureClass,
                            unloaded: bool, log: seq<Event>, call: Event)
    requires Releasable(g, m) && g.models[m].lifecycle == Unloading && m !in g.pendingModels
    requires Flawless(log, log + ([call] + ReleaseCalls(g, m, unloaded)))
    ensures Release(g, limits, m, operation, failure, unloaded).result.Ok?
    ensures CleanModel(Release(g, limits, m, operation, failure, unloaded).next, m)
  {
    hide Release, ReleaseCalls, Flawless, Releasable, CleanModel;
    var mid, after := log + [call], log + ([call] + ReleaseCalls(g, m, unloaded));
    ReleaseFlawless(g, limits, m, operation, failure, unloaded, mid);
    assert mid + ReleaseCalls(g, m, unloaded) == after;
    FlawlessParts(log, mid, after);
    GoneIsClean(Release(g, limits, m, operation, failure, unloaded).next, m);
  }

  lemma RemoveCases(g: Registry, limits: Limits, r: RequestId, operation: RuntimeOperation,
                    failure: FailureClass, destroyed: bool, unloaded: bool)
    requires HasRequest(g, r)
    ensures var e, calls, key := Remove(g, limits, r, operation, failure, destroyed, unloaded), RemoveCalls(g, r, destroyed, unloaded), RequestOf(g, r).sequence.key;
            if !destroyed then calls == [Destroy(key, false)] && e.result.Err? && e.result.error.RetainsResource()
            else if AfterFinish(SlotOf(g, r).lifecycle).result == Ok(ReleaseModel) then
              && e == Release(DropRequest(g, r), limits, g.requestIndex[r], operation, failure, unloaded)
              && calls == [Destroy(key, true)] + ReleaseCalls(DropRequest(g, r), g.requestIndex[r], unloaded)
            else e == Effect(DropRequest(g, r), Ok(())) && calls == [Destroy(key, true)]
  {
    hide DropRequest, QuarantineRequest, Release, ReleaseCalls, AfterFinish;
  }

  lemma GoneIsClean(g: Registry, m: ModelId)
    ensures m !in g.models && m !in g.pendingModels ==> CleanModel(g, m)
  {
  }

  lemma DroppedClean(g: Registry, r: RequestId)
    requires HasRequest(g, r) && SlotOf(g, r).lifecycle.ActiveCount() == |SlotOf(g, r).requests|
    requires CleanModel(g, g.requestIndex[r])
    ensures var m, next := g.requestIndex[r], DropRequest(g, r);
            && CleanModel(next, m) && m !in next.pendingModels
            && (AfterFinish(SlotOf(g, r).lifecycle).result == Ok(ReleaseModel) ==> Releasable(next, m) && next.models[m].lifecycle == Unloading)
  {
    hide DropRequest, AfterFinish;
    DroppedSlot(g, r);
    FinishIsExact(SlotOf(g, r).lifecycle);
    WithoutKey(SlotOf(g, r).requests, r);
  }

  lemma DroppedSlot(g: Registry, r: RequestId)
    requires HasRequest(g, r)
    ensures var m, next := g.requestIndex[r], DropRequest(g, r);
            && m in next.models && next.pendingModels == g.pendingModels
            && next.models[m].requests == g.models[m].requests - {r}
            && next.models[m].pendingSequences == g.models[m].pendingSequences
            && next.models[m].lifecycle == AfterFinish(g.models[m].lifecycle).next
  {
    hide Minus, WholeRequest, AfterFinish;
  }

  lemma FirstEffective(log: seq<Event>, calls: seq<Event>)
    ensures log <= log + calls
    ensures calls != [] && Flawless(log, log + calls) ==> Effective(calls[0])
  {
    if calls != [] {
      assert (log + calls)[|log|] == calls[0];
    }
  }

  lemma ReleaseFlawless(g: Registry, limits: Limits, m: ModelId, operation: RuntimeOperation, failure: FailureClass, unloaded: bool, log: seq<Event>)
    ensures var e, calls := Release(g, limits, m, operation, failure, unloaded), ReleaseCalls(g, m, unloaded);
            && log <= log + calls
            && (Flawless(log, log + calls) && Releasable(g, m) && g.models[m].lifecycle == Unloading && m !in g.pendingModels ==>
                  e.result.Ok? && m !in e.next.models && m !in e.next.pendingModels)
  {
    hide Minus;
    var calls := ReleaseCalls(g, m, unloaded);
    if Releasable(g, m) && g.models[m].lifecycle == Unloading {
      assert (log + calls)[|log|] == PrepareUnload(g.models[m].model.key, unloaded);
    }
  }

  // ----- Executing a request -----

  // prefill and decode after the checked backend call: `operation` is what a backend
  // error is blamed on.
  ghost function Execute(g: Registry, limits: Limits, r: RequestId, checked: Checked, usage: Usage,
                         operation: RuntimeOperation, destroyed: bool, unloaded: bool): Effect<Answer>
    requires HasRequest(g, r)
  {
    var used := UseSequence(g, r, checked.sequence, usage);
    match checked.answer
    case Ok(Ready(_, _, _)) => Effect(used, Ok(checked.answer.value))
    case Ok(Ended(reason)) =>
      var removed := Remove(used, limits, r, FinishOperation(reason), FinishFailureClass(reason), destroyed, unloaded);
      if removed.result.Err? && !removed.result.error.RetainsResource()
      then Effect(removed.next, Err(removed.result.error))
      else Effect(removed.next, Ok(Ended(reason)))
    case Err(error) =>
      var removed := Remove(used, limits, r, operation, SequenceFailure, destroyed, unloaded);
      if removed.result.Err? && !removed.result.error.RetainsResource()
      then Effect(removed.next, Err(removed.result.error))
      else Effect(removed.next, Err(SequenceFailed(error)))
  }

  // The calls prefill and decode make: the execution if the checks let it in, and the
  // removal's if the request ended or failed.
  ghost function ExecuteCalls(g: Registry, r: RequestId, checked: Checked, usage: Usage, destroyed: bool, unloaded: bool): seq<Event>
    requires HasRequest(g, r)
  {
    (if checked.entered then [Executed(RequestOf(g, r).sequence.key)] else [])
    + ConcludeCalls(UseSequence(g, r, checked.sequence, usage), r, checked, destroyed, unloaded)
  }

  ghost function ConcludeCalls(used: Registry, r: RequestId, checked: Checked, destroyed: bool, unloaded: bool): seq<Event>
    requires HasRequest(used, r)
  {
    if checked.answer.Ok? && checked.answer.value.Ready? then [] else RemoveCalls(used, r, destroyed, unloaded)
  }

  // How many requests an unload that cancels reports: those of earlier attempts included.
  function CancelledBy(slot: ModelSlot): nat {
    Min(U32_MAX, slot.cancelledDuringUnload + |slot.requests|)
  }

  function PromptUsage(usage: Usage, answer: Result<Answer, SequenceError>): Usage {
    if answer.Ok? && answer.value.Ready?
    then usage.(promptTokens := SaturatingAdd(usage.promptTokens, answer.value.consumed))
    else usage
  }

  function DecodeUsage(usage: Usage, answer: Result<Answer, SequenceError>): Usage {
    if answer.Ok? && answer.value.Ready?
    then usage.(generatedTokens := SaturatingAdd(usage.generatedTokens, 1))
    else usage
  }

  // ----- Retrying quarantined resources -----

  datatype Cleanup = NothingToRetry | RetryOf(model: ModelId, request: RequestId) | RetryOfModel(model: ModelId)

  ghost predicate SequenceRetryable(g: Registry, limits: Limits, m: ModelId, r: RequestId) {
    && m in g.models
    && r in g.models[m].pendingSequences
    && g.models[m].pendingSequences[r].attempts < limits.maximumAttempts
  }

  ghost predicate ModelRetryable(g: Registry, limits: Limits, m: ModelId) {
    m in g.pendingModels && g.pendingModels[m].attempts < limits.maximumAttempts
  }

  // The quarantined requests of one slot that policy still allows to retry.
  function RetryableRequests(slot: ModelSlot, maximum: nat): set<RequestId> {
    set r | r in slot.pendingSequences && slot.pendingSequences[r].attempts < maximum
  }

  // The resource poll_cleanup picks: sequences before models, each in id order.
  ghost predicate NextCleanup(g: Registry, limits: Limits, c: Cleanup) {
    match c
    case RetryOf(m, r) =>
      && SequenceRetryable(g, limits, m, r)
      && (forall m', r' :: SequenceRetryable(g, limits, m', r') ==> m < m' || (m == m' && r <= r'))
    case RetryOfModel(m) =>
      && (forall m', r' :: !SequenceRetryable(g, limits, m', r'))
      && ModelRetryable(g, limits, m)
      && (forall m' :: ModelRetryable(g, limits, m') ==> m <= m')
    case NothingToRetry =>
      && (forall m', r' :: !SequenceRetryable(g, limits, m', r'))
      && (forall m' :: !ModelRetryable(g, limits, m'))
  }

  function PollFailed(state: RetryState): CleanupPoll {
    if state.Exhausted() then ExhaustedRetry(state) else RetryFailed(state)
  }

  // poll_cleanup for a chosen resource; `released` is the backend's answer to the
  // retry, `unloaded` its answer to a model release the retry makes possible.
  ghost function CleanupEffect(g: Registry, limits: Limits, c: Cleanup, released: bool, unloaded: bool): Effect<CleanupPoll>
    requires NextCleanup(g, limits, c)
    requires c.RetryOf? ==> HasQuarantined(g, c.model, c.request)
  {
    match c
    case NothingToRetry => Effect(g, Ok(CleanupPoll.Idle))
    case RetryOf(m, r) =>
      var pending := g.models[m].pendingSequences[r];
      var state := RetryState(SequenceResource(m, r, pending.sequenceId), pending.failure, pending.attempts + 1, limits.maximumAttempts);
      if !released then Effect(RetrySequence(g, m, r), Ok(PollFailed(state)))
      else
        var next := DropQuarantined(g, m, r);
        if g.models[m].lifecycle != Unloading then Effect(next, Ok(CleanupPoll.Released(state)))
        else
          var release := Release(next, limits, m, pending.failure.primaryOperation, pending.failure.primaryFailure, unloaded);
          if release.result.Err? && !release.result.error.RetainsResource()
          then Effect(release.next, Err(release.result.error))
          else Effect(release.next, Ok(CleanupPoll.Released(state)))
    case RetryOfModel(m) =>
      var pending := g.pendingModels[m];
      var state := RetryState(ModelResource(m), pending.failure, pending.attempts + 1, limits.maximumAttempts);
      if !released then Effect(RetryModel(g, m), Ok(PollFailed(state)))
      else Effect(DropPendingModel(g, m), Ok(CleanupPoll.Released(state)))
  }

  // What is retained is answered as final exactly when no retry is left for it: after a
  // failed removal ...
  lemma RemovalRetryMeans(g: Registry, limits: Limits, r: RequestId, operation: RuntimeOperation, failure: FailureClass, unloaded: bool)
    requires HasRequest(g, r)
    ensures var e, m := Remove(g, limits, r, operation, failure, false, unloaded), g.requestIndex[r];
            && e.result.Err? && e.result.error.RetainsResource() && HasQuarantined(e.next, m, r)
            && (e.result.error.CleanupRetryExhausted? <==> !SequenceRetryable(e.next, limits, m, r))
  {
    hide Minus, Release;
  }

  // ... a failed release ...
  lemma ReleaseRetryMeans(g: Registry, limits: Limits, m: ModelId, operation: RuntimeOperation, failure: FailureClass)
    requires Releasable(g, m) && g.models[m].lifecycle == Unloading
    ensures var e := Release(g, limits, m, operation, failure, false);
            && e.result.Err? && e.result.error.RetainsResource() && m in e.next.pendingModels
            && (e.result.error.CleanupRetryExhausted? <==> !ModelRetryable(e.next, limits, m))
  {
    hide Minus;
  }

  // ... a failed retry ...
  lemma PollRetryMeans(g: Registry, limits: Limits, c: Cleanup, unloaded: bool)
    requires NextCleanup(g, limits, c) && (c.RetryOf? ==> HasQuarantined(g, c.model, c.request))
    ensures c != NothingToRetry ==>
              var e := CleanupEffect(g, limits, c, false, unloaded);
              && e.result.Ok? && (e.result.value.ExhaustedRetry? || e.result.value.RetryFailed?)
              && (e.result.value.ExhaustedRetry? <==>
                    if c.RetryOf? then !SequenceRetryable(e.next, limits, c.model, c.request) else !ModelRetryable(e.next, limits, c.model))
  {
    hide Minus, Release;
  }

  // ... and an unload of a model that is already quarantined.
  lemma AbsentRetryMeans(g: Registry, limits: Limits, handle: ModelHandle)
    requires handle.id in g.pendingModels && handle.id in g.generations && g.generations[handle.id] == handle.generation
    ensures var r := AbsentAnswer(g, limits, handle);
            && r.Err? && r.error.RetainsResource()
            && (r.error.CleanupRetryExhausted? <==> !ModelRetryable(g, limits, handle.id))
  {
  }

  // The backend calls of one poll: one retry, and one release if the retried sequence was
  // the last thing that kept its model resident.
  ghost function CleanupCalls(g: Registry, limits: Limits, c: Cleanup, released: bool, unloaded: bool): seq<Event>
    requires NextCleanup(g, limits, c)
    requires c.RetryOf? ==> HasQuarantined(g, c.model, c.request)
  {
    match c
    case NothingToRetry => []
    case RetryOf(m, r) =>
      [Destroy(g.models[m].pendingSequences[r].sequence.key, released)]
      + if released && g.models[m].lifecycle == Unloading then ReleaseCalls(DropQuarantined(g, m, r), m, unloaded) else []
    case RetryOfModel(m) => [PrepareUnload(g.pendingModels[m].model.key, released)]
  }

  lemma NothingQuarantinedIsIdle(g: Registry, limits: Limits, c: Cleanup, released: bool, unloaded: bool)
    requires NextCleanup(g, limits, c) && NothingQuarantined(g)
    ensures c == NothingToRetry && CleanupEffect(g, limits, c, released, unloaded) == Effect(g, Ok(CleanupPoll.Idle))
  {
    hide Release, Minus;
  }

  // The attempts policy still allows, one element per attempt.
  ghost function SequenceAttemptsLeft(models: Models, maximum: nat): set<(ModelId, RequestId, nat)> {
    set m, r, n | m in models && r in models[m].pendingSequences
                  && models[m].pendingSequences[r].attempts <= n < maximum :: (m, r, n)
  }

  ghost function ModelAttemptsLeft(pendingModels: map<ModelId, PendingModel>, maximum: nat): set<(ModelId, nat)> {
    set m, n | m in pendingModels && pendingModels[m].attempts <= n < maximum :: (m, n)
  }

  // Fewer attempts are left when one sequence's quarantine record moves on.
  lemma SequenceAttemptUsed(models: Models, maximum: nat, m: ModelId, slot: ModelSlot, r: RequestId)
    requires m in models && r in models[m].pendingSequences && models[m].pendingSequences[r].attempts < maximum
    requires slot.pendingSequences == models[m].pendingSequences - {r}
      || (slot.pendingSequences.Keys == models[m].pendingSequences.Keys
          && slot.pendingSequences - {r} == models[m].pendingSequences - {r}
          && slot.pendingSequences[r].attempts == models[m].pendingSequences[r].attempts + 1)
    ensures SequenceAttemptsLeft(models[m := slot], maximum) < SequenceAttemptsLeft(models, maximum)
  {
    var gone := (m, r, models[m].pendingSequences[r].attempts);
    assert gone in SequenceAttemptsLeft(models, maximum) && gone !in SequenceAttemptsLeft(models[m := slot], maximum);
    forall t | t in SequenceAttemptsLeft(models[m := slot], maximum)
      ensures t in SequenceAttemptsLeft(models, maximum)
    {
      if t.0 == m && t.1 != r {
        assert t.1 in slot.pendingSequences - {r};
        assert (slot.pendingSequences - {r})[t.1] == slot.pendingSequences[t.1];
        assert (models[m].pendingSequences - {r})[t.1] == models[m].pendingSequences[t.1];
      }
    }
  }

  lemma AttemptsWithoutModel(models: Models, maximum: nat, m: ModelId)
    ensures SequenceAttemptsLeft(models - {m}, maximum) <= SequenceAttemptsLeft(models, maximum)
  {
  }

  lemma ModelAttemptUsed(pendingModels: map<ModelId, PendingModel>, pendingModels': map<ModelId, PendingModel>, maximum: nat, m: ModelId)
    requires m in pendingModels && pendingModels[m].attempts < maximum
    requires pendingModels' == pendingModels - {m}
      || (m in pendingModels' && pendingModels'[m].attempts == pendingModels[m].attempts + 1 && pendingModels' == pendingModels[m := pendingModels'[m]])
    ensures ModelAttemptsLeft(pendingModels', maximum) < ModelAttemptsLeft(pendingModels, maximum)
  {
    var gone := (m, pendingModels[m].attempts);
    assert gone in ModelAttemptsLeft(pendingModels, maximum) && gone !in ModelAttemptsLeft(pendingModels', maximum);
  }

  // Every poll that is not idle uses up an attempt: those of sequences never come
  // back, and those of models only grow when a sequence's are used.
  lemma PollProgresses(g: Registry, limits: Limits, c: Cleanup, released: bool, unloaded: bool)
    requires NextCleanup(g, limits, c) && c != NothingToRetry
    requires c.RetryOf? ==> HasQuarantined(g, c.model, c.request)
    ensures var next := CleanupEffect(g, limits, c, released, unloaded).next;
            || SequenceAttemptsLeft(next.models, limits.maximumAttempts) < SequenceAttemptsLeft(g.models, limits.maximumAttempts)
            || (next.models == g.models
                && ModelAttemptsLeft(next.pendingModels, limits.maximumAttempts) < ModelAttemptsLeft(g.pendingModels, limits.maximumAttempts))
  {
    hide SequenceAttemptsLeft, ModelAttemptsLeft, Release, Minus;
    var next := CleanupEffect(g, limits, c, released, unloaded).next;
    match c
    case RetryOf(m, r) =>
      var dropped := DropQuarantined(g, m, r);
      SequenceAttemptUsed(g.models, limits.maximumAttempts, m, SlotRetried(g.models[m], r), r);
      SequenceAttemptUsed(g.models, limits.maximumAttempts, m, dropped.models[m], r);
      var failure := g.models[m].pendingSequences[r].failure;
      ReleaseModels(dropped, limits, m, failure.primaryOperation, failure.primaryFailure, unloaded);
      AttemptsWithoutModel(dropped.models, limits.maximumAttempts, m);
    case RetryOfModel(m) =>
      ModelAttemptUsed(g.pendingModels, next.pendingModels, limits.maximumAttempts, m);
  }

  lemma ReleaseModels(g: Registry, limits: Limits, m: ModelId, operation: RuntimeOperation, failure: FailureClass, unloaded: bool)
    ensures var next := Release(g, limits, m, operation, failure, unloaded).next;
            next.models == g.models || next.models == g.models - {m}
  {
    hide Minus;
  }

  // ----- Loading -----

  // What load_model may do: admit the model under its id's next generation, never
  // issued before; quarantine a rejected one it could not unload; or change nothing.
  ghost predicate LoadOutcome(g: Registry, limits: Limits, m: ModelId, next: Registry, r: Outcome<LoadReceipt>) {
    match r
    case Ok(receipt) =>
      && m in next.models
      && FreshSlot(m, next.models[m])
      && RoomForModel(g, limits, m, next.models[m].modelFootprint)
      && next == AddModel(g, m, next.models[m])
      && receipt == LoadReceipt(next.models[m].handle, next.models[m].descriptor, next.models[m].modelFootprint)
      && receipt.handle == ModelHandle(m, NextGeneration(g, m))
      && receipt.handle !in g.issued
    case Err(error) =>
      || next == g
      || (&& error.RetainsResource()
          && m in next.pendingModels
          && next.pendingModels[m].attempts == 1
          && RoomForModel(g, limits, m, next.pendingModels[m].footprint)
          && next == AddPendingModel(g, m, NextGeneration(g, m), next.pendingModels[m]))
  }

  // The integers and both budgets hold the footprint on top of what is reserved.
  ghost predicate RoomInBudget(reserved: Footprint, f: Footprint, budget: Budget) {
    FitsU64(Plus(reserved, f)) && WithinBudget(Plus(reserved, f), budget)
  }

  // How a footprint that does not fit is refused.
  ghost predicate MemoryRefused<T>(reserved: Footprint, f: Footprint, budget: Budget, r: Outcome<T>) {
    var next := Plus(reserved, f);
    && (!FitsU64(next) ==> r == Err(MemoryOverflow))
    && (FitsU64(next) && HostBytes(next) > budget.host ==> r == Err(InsufficientMemory(Host, HostBytes(next), budget.host)))
    && (FitsU64(next) && HostBytes(next) <= budget.host && DeviceBytes(next) > budget.device ==>
          r == Err(InsufficientMemory(Device, DeviceBytes(next), budget.device)))
  }

  // What the loader's answers make of a load that passed the early checks: it succeeds
  // exactly when the plan fits the budget and the model loaded is the one planned, and then
  // the slot, the receipt and the ledger hold exactly what was planned.
  ghost predicate LoadExplained(g: Registry, limits: Limits, m: ModelId, planned: Result<LoadPlan, nat>, loaded: Result<Model, nat>,
                                unloaded: bool, next: Registry, r: Outcome<LoadReceipt>) {
    var handle := ModelHandle(m, NextGeneration(g, m));
    var fits, honest := LoadFits(g, limits, planned), LoadHonest(handle, planned, loaded);
    && (r.Ok? <==> fits && honest)
    && (r.Ok? ==>
          && r.value == LoadReceipt(handle, planned.value.descriptor, planned.value.footprint)
          && m in next.models && next.models[m].handle == handle && next.models[m].model == loaded.value
          && next.models[m].descriptor == planned.value.descriptor
          && next.models[m].modelFootprint == next.models[m].reserved == planned.value.footprint
          && next.reserved == Plus(g.reserved, planned.value.footprint))
    && (planned.Err? ==> r == Err(LoadError(planned.error)) && next == g)
    && (planned.Ok? && !fits ==> MemoryRefused(g.reserved, planned.value.footprint, limits.budget, r) && next == g)
    && (fits && loaded.Err? ==> r == Err(LoadError(loaded.error)) && next == g)
    && (fits && loaded.Ok? && !honest && unloaded ==> r == Err(BackendContractViolation) && next == g)
    && (fits && loaded.Ok? && !honest && !unloaded ==> ModelRetained(g, limits, m, loaded.value, planned.value.footprint, next, r))
  }

  // A rejected model that could not be unloaded: quarantined, paid for and reported.
  ghost predicate ModelRetained<T>(g: Registry, limits: Limits, m: ModelId, model: Model, footprint: Footprint, next: Registry, r: Outcome<T>) {
    var report := CleanupReport(ModelAdmission, ContractFailure, ModelUnloading, SynchronizationFailure);
    && r == Err(RetentionError(RetryState(ModelResource(m), report, 1, limits.maximumAttempts)))
    && m in next.pendingModels && next.pendingModels[m] == PendingModel(model, footprint, report, 1, 0)
    && next.reserved == Plus(g.reserved, footprint)
  }

  ghost predicate LoadFits(g: Registry, limits: Limits, planned: Result<LoadPlan, nat>) {
    planned.Ok? && RoomInBudget(g.reserved, planned.value.footprint, limits.budget)
  }

  // The model loaded is the one planned, under the handle it was asked for.
  ghost predicate LoadHonest(handle: ModelHandle, planned: Result<LoadPlan, nat>, loaded: Result<Model, nat>) {
    planned.Ok? && loaded.Ok? && loaded.value.handle == handle && loaded.value.metadata == planned.value.descriptor.metadata
  }

  // What was asked: the plan first, and the load only if the plan fits.
  ghost function LoadReplies(g: Registry, limits: Limits, handle: ModelHandle, planned: Result<LoadPlan, nat>, loaded: Result<Model, nat>): seq<Reply> {
    [LoadPlanned(handle, planned)] + if LoadFits(g, limits, planned) then [LoadAnswered(handle, loaded)] else []
  }

  // What was called: an unload only of a model that is not the one planned.
  ghost function LoadCalls(g: Registry, limits: Limits, handle: ModelHandle, planned: Result<LoadPlan, nat>, loaded: Result<Model, nat>, unloaded: bool): seq<Event> {
    if !LoadFits(g, limits, planned) || loaded.Err? then []
    else [Loaded(loaded.value.key)] + if LoadHonest(handle, planned, loaded) then [] else [PrepareUnload(loaded.value.key, unloaded)]
  }

  // The checks load_model makes before it asks the loader anything, in its order.
  ghost function LoadGate(g: Registry, limits: Limits, shuttingDown: bool, m: ModelId): Option<RuntimeError> {
    if shuttingDown then Some(ShuttingDown)
    else if m in g.models || m in g.pendingModels then Some(ModelAlreadyLoaded(m))
    else if |g.models| + |g.pendingModels| >= limits.maximumModels then
      Some(LoadedModelLimit(|g.models| + |g.pendingModels| + 1, limits.maximumModels))
    else if m in g.generations && g.generations[m] >= U64_MAX then Some(ModelGenerationExhausted(m))
    else None
  }

  // ----- Admitting a request -----

  datatype StartCall = StartCall(
    handle: ModelHandle,
    request: RequestId,
    sequence: SequenceId,
    configuration: SequenceConfiguration,
    workspace: Footprint,
    expectedLogits: Option<nat>
  )

  ghost predicate Admitted(g: Registry, limits: Limits, call: StartCall, next: Registry, receipt: StartReceipt) {
    var m, r := call.handle.id, call.request;
    && m in g.models && g.models[m].handle == call.handle && !g.models[m].poisoned
    && g.models[m].lifecycle.WellFormed()
    && RoomForRequest(g, limits, m, r, call.sequence)
    && m in next.models && r in next.models[m].requests
    && var request := next.models[m].requests[r];
       && request.sequence.id == call.sequence
       && request.sequence.tokenCapacity == call.configuration.maximumTokens
       && request.sequence.calls == []
       && request.workspaceFootprint == call.workspace
       && request.usage == Usage(0, 0)
       && Affordable(g, limits, m, WholeRequest(request))
       && next == AddRequest(g, m, r, request, call.expectedLogits.Some?)
       && receipt.request == r && receipt.sequence == call.sequence && receipt.reserved == WholeRequest(request)
       && (call.expectedLogits.Some? ==> receipt.logitsCapacity == call.expectedLogits.value)
  }

  // A created sequence that broke the plan and could not be destroyed.
  ghost predicate RejectedAndKept(g: Registry, limits: Limits, call: StartCall, next: Registry) {
    var m, r := call.handle.id, call.request;
    && m in g.models && g.models[m].handle == call.handle
    && RoomForRequest(g, limits, m, r, call.sequence)
    && m in next.models && r in next.models[m].pendingSequences
    && var pending := next.models[m].pendingSequences[r];
       && pending.request == r && pending.sequenceId == call.sequence && pending.attempts == 1
       && Affordable(g, limits, m, pending.footprint)
       && next == AddRejected(g, m, r, pending)
  }

  ghost predicate StartOutcome(g: Registry, limits: Limits, call: StartCall, next: Registry, r: Outcome<StartReceipt>) {
    match r
    case Ok(receipt) => Admitted(g, limits, call, next, receipt)
    case Err(error) => next == g || (error.RetainsResource() && RejectedAndKept(g, limits, call, next))
  }

  // The plan is for what was asked.
  ghost predicate PlanAgrees(call: StartCall, planned: Result<SequencePlan, nat>) {
    && planned.Ok?
    && planned.value.configuration == call.configuration
    && (call.expectedLogits.Some? ==> planned.value.logitsCapacity == call.expectedLogits.value)
  }

  // The planned sequence and the workspace fit the integers, both budgets and the slot.
  ghost predicate PlanAffordable(g: Registry, limits: Limits, call: StartCall, planned: Result<SequencePlan, nat>)
    requires planned.Ok?
  {
    var committed := Plus(planned.value.footprint, call.workspace);
    && RoomInBudget(g.reserved, committed, limits.budget)
    && call.handle.id in g.models && FitsU64(Plus(g.models[call.handle.id].reserved, committed))
  }

  // How an unaffordable plan is refused: the backend's part is tested before the whole.
  ghost predicate StartRefused<T>(g: Registry, limits: Limits, call: StartCall, plan: SequencePlan, r: Outcome<T>) {
    var committed := Plus(plan.footprint, call.workspace);
    if !FitsU64(committed) then r == Err(MemoryOverflow)
    else if !RoomInBudget(g.reserved, plan.footprint, limits.budget) then MemoryRefused(g.reserved, plan.footprint, limits.budget, r)
    else if !RoomInBudget(g.reserved, committed, limits.budget) then MemoryRefused(g.reserved, committed, limits.budget, r)
    else r == Err(MemoryOverflow)
  }

  ghost predicate SequenceHonest(call: StartCall, created: Result<Sequence, nat>) {
    created.Ok? && created.value.id == call.sequence && created.value.tokenCapacity == call.configuration.maximumTokens
  }

  // What the model's answers make of a start that passed the early checks: it succeeds
  // exactly when the plan agrees and fits and the sequence created is the one asked for,
  // and then request, slot, receipt and ledger hold exactly what was planned.
  ghost predicate StartExplained(g: Registry, limits: Limits, call: StartCall, planned: Result<SequencePlan, nat>,
                                 created: Result<Sequence, nat>, destroyed: bool, next: Registry, r: Outcome<StartReceipt>)
  {
    var m := call.handle.id;
    var agrees := PlanAgrees(call, planned);
    var fits := agrees && PlanAffordable(g, limits, call, planned);
    var honest := SequenceHonest(call, created);
    && m in g.models
    && (r.Ok? <==> fits && honest)
    && (r.Ok? ==>
          var committed := Plus(planned.value.footprint, call.workspace);
          && r.value == StartReceipt(call.request, call.sequence, planned.value.logitsCapacity, committed)
          && m in next.models && call.request in next.models[m].requests
          && next.models[m].requests[call.request] == RequestSlot(created.value, planned.value.footprint, call.workspace, Usage(0, 0))
          && next.models[m].reserved == Plus(g.models[m].reserved, committed)
          && next.reserved == Plus(g.reserved, committed))
    && (planned.Err? ==> r == Err(ModelError(planned.error)) && next == g)
    && (planned.Ok? && !agrees ==> r == Err(BackendContractViolation) && next == g)
    && (agrees && !fits ==> StartRefused(g, limits, call, planned.value, r) && next == g)
    && (fits && created.Err? ==> r == Err(ModelError(created.error)) && next == g)
    && (fits && created.Ok? && !honest && destroyed ==> r == Err(BackendContractViolation) && next == g)
    && (fits && created.Ok? && !honest && !destroyed ==> SequenceRetained(g, limits, call, created.value, planned.value.footprint, next, r))
  }

  // The same for a rejected sequence that could not be destroyed.
  ghost predicate SequenceRetained<T>(g: Registry, limits: Limits, call: StartCall, sequence: Sequence, footprint: Footprint, next: Registry, r: Outcome<T>) {
    var m := call.handle.id;
    var report := CleanupReport(SequenceAdmission, ContractFailure, SequenceDestruction, SequenceFailure);
    && r == Err(RetentionError(RetryState(SequenceResource(m, call.request, call.sequence), report, 1, limits.maximumAttempts)))
    && m in g.models && m in next.models && call.request in next.models[m].pendingSequences
    && next.models[m].pendingSequences[call.request] == PendingSequence(call.request, call.sequence, sequence, footprint, report, 1)
    && next.models[m].reserved == Plus(g.models[m].reserved, footprint)
    && next.reserved == Plus(g.reserved, footprint)
  }

  ghost function StartReplies(g: Registry, limits: Limits, call: StartCall, on: Key, planned: Result<SequencePlan, nat>, created: Result<Sequence, nat>): seq<Reply> {
    [SequencePlanned(on, call.configuration, planned)]
    + if PlanAgrees(call, planned) && PlanAffordable(g, limits, call, planned)
      then [SequenceAnswered(on, call.sequence, call.configuration, created)] else []
  }

  ghost function StartCalls(g: Registry, limits: Limits, call: StartCall, on: Key, planned: Result<SequencePlan, nat>,
                            created: Result<Sequence, nat>, destroyed: bool): seq<Event> {
    if !PlanAgrees(call, planned) || !PlanAffordable(g, limits, call, planned) || created.Err? then []
    else [Created(created.value.key, on)] + if SequenceHonest(call, created) then [] else [Destroy(created.value.key, destroyed)]
  }

  // The checks start_request makes before it asks the model for a plan: of the request ...
  ghost function RequestGate(g: Registry, limits: Limits, shuttingDown: bool, call: StartCall): Option<RuntimeError> {
    var r, occupied := call.request, g.activeRequests + g.pendingCleanupSequences;
    if shuttingDown then Some(ShuttingDown)
    else if r in g.requestIndex || r in g.pendingRequestIndex then Some(RequestAlreadyActive(r))
    else if call.sequence in g.sequenceIndex || call.sequence in g.pendingSequenceIndex then Some(SequenceAlreadyActive(call.sequence))
    else if occupied >= limits.maximumRequests then Some(CapacityExhausted(Capacity(ActiveRequests, occupied + 1, limits.maximumRequests)))
    else None
  }

  // ... of the ledger of workspaces ...
  ghost function WorkspaceGate(g: Registry, call: StartCall): Option<RuntimeError> {
    if call.expectedLogits.None? then None
    else if g.generationWorkspaces + 1 > U32_MAX then Some(BackendContractViolation)
    else if !FitsU64(Plus(g.reservedWorkspace, call.workspace)) then Some(MemoryOverflow)
    else None
  }

  // ... and of the model.
  ghost function SlotGate(g: Registry, call: StartCall): Option<RuntimeError> {
    var m := call.handle.id;
    if m !in g.models then Some(ModelNotLoaded(m))
    else if g.models[m].handle != call.handle then Some(StaleModelHandle(call.handle, g.models[m].handle))
    else if g.models[m].poisoned then Some(ModelDegraded(m))
    else if !g.models[m].lifecycle.Accepting() then Some(LifecycleFailed(InvalidTransition))
    else
      var held := |g.models[m].requests| + |g.models[m].pendingSequences|;
      if held >= g.models[m].descriptor.maximumSequences
      then Some(CapacityExhausted(Capacity(ActiveSequences, held + 1, g.models[m].descriptor.maximumSequences)))
      else None
  }

  ghost function StartGate(g: Registry, limits: Limits, shuttingDown: bool, call: StartCall): Option<RuntimeError> {
    if RequestGate(g, limits, shuttingDown, call).Some? then RequestGate(g, limits, shuttingDown, call)
    else if WorkspaceGate(g, call).Some? then WorkspaceGate(g, call)
    else SlotGate(g, call)
  }

  // The preflight leaves the ledger of workspaces to the start itself.
  ghost function PreflightGate(g: Registry, limits: Limits, shuttingDown: bool, call: StartCall): Option<RuntimeError> {
    if RequestGate(g, limits, shuttingDown, call).Some? then RequestGate(g, limits, shuttingDown, call) else SlotGate(g, call)
  }

  // load_model, for every answer of the loader.
  ghost predicate LoadMeets(g: Registry, limits: Limits, shuttingDown: bool, m: ModelId, planned: Result<LoadPlan, nat>, loaded: Result<Model, nat>,
                            unloaded: bool, next: Registry, r: Outcome<LoadReceipt>, before: Transcript, after: Transcript) {
    match LoadGate(g, limits, shuttingDown, m)
    case Some(error) => r == Err(error) && next == g && after == before
    case None =>
      var handle := ModelHandle(m, NextGeneration(g, m));
      && LoadExplained(g, limits, m, planned, loaded, unloaded, next, r)
      && after.replies == before.replies + LoadReplies(g, limits, handle, planned, loaded)
      && after.log == before.log + LoadCalls(g, limits, handle, planned, loaded, unloaded)
  }

  // start_request, for every answer of the model.
  ghost predicate StartMeets(g: Registry, limits: Limits, shuttingDown: bool, call: StartCall, planned: Result<SequencePlan, nat>,
                             created: Result<Sequence, nat>, destroyed: bool, next: Registry, r: Outcome<StartReceipt>,
                             before: Transcript, after: Transcript) {
    match StartGate(g, limits, shuttingDown, call)
    case Some(error) => r == Err(error) && next == g && after == before
    case None =>
      && call.handle.id in g.models
      && var on := g.models[call.handle.id].model.key;
         && StartExplained(g, limits, call, planned, created, destroyed, next, r)
         && after.replies == before.replies + StartReplies(g, limits, call, on, planned, created)
         && after.log == before.log + StartCalls(g, limits, call, on, planned, created, destroyed)
  }

  // preflight_generation_resources: one plan is asked for, and nothing else happens.
  ghost predicate PreflightMeets(g: Registry, limits: Limits, shuttingDown: bool, call: StartCall, planned: Result<SequencePlan, nat>,
                                 r: Outcome<()>, before: Transcript, after: Transcript) {
    match PreflightGate(g, limits, shuttingDown, call)
    case Some(error) => r == Err(error) && after == before
    case None =>
      && call.handle.id in g.models
      && after == before.(replies := before.replies + [SequencePlanned(g.models[call.handle.id].model.key, call.configuration, planned)])
      && PreflightExplained(g, limits, call, planned, r)
  }

  ghost predicate PreflightExplained(g: Registry, limits: Limits, call: StartCall, planned: Result<SequencePlan, nat>, r: Outcome<()>) {
    if planned.Err? then r == Err(ModelError(planned.error))
    else if !PlanAgrees(call, planned) then r == Err(BackendContractViolation)
    else
      var committed := Plus(planned.value.footprint, call.workspace);
      if !FitsU64(committed) then r == Err(MemoryOverflow)
      else if !RoomInBudget(g.reserved, committed, limits.budget) then MemoryRefused(g.reserved, committed, limits.budget, r)
      else r == Ok(())
  }

  // What can still go wrong once a request or a model has passed those checks: the
  // loader's own errors, a broken plan, and memory.
  predicate LoaderError(error: RuntimeError) {
    error.ModelError? || error.LoadError? || error.BackendContractViolation? || error.MemoryOverflow? || error.InsufficientMemory? || error.RetainsResource()
  }

  // ----- Cancelling a model's requests -----

  datatype Removal = Removal(request: RequestId, destroyed: bool, unloaded: bool)

  ghost function Counted(g: Registry, m: ModelId, cancelled: nat): Registry {
    if m in g.models then g.(models := g.models[m := g.models[m].(cancelledDuringUnload := cancelled)]) else g
  }

  // One turn of cancel_all_requests: the least request of the model is removed and, unless
  // the lifecycle refused, counted.
  ghost function CancelLeast(g: Registry, limits: Limits, m: ModelId, step: Removal): Effect<()>
    requires m in g.models && HasRequest(g, step.request)
  {
    var removed := Remove(g, limits, step.request, Cancellation, CancellationClass, step.destroyed, step.unloaded);
    if removed.result.Err? && !removed.result.error.RetainsResource() then removed
    else Effect(Counted(removed.next, m, SaturatingCount(g.models[m].cancelledDuringUnload)), removed.result)
  }

  function SaturatingCount(n: nat): nat {
    Min(U32_MAX, n + 1)
  }

  ghost predicate CancelStep(g: Registry, limits: Limits, m: ModelId, step: Removal, next: Registry, r: Outcome<()>) {
    && m in g.models && HasRequest(g, step.request) && IsLeast(step.request, g.models[m].requests.Keys)
    && CancelLeast(g, limits, m, step) == Effect(next, r)
  }

  // The turns of cancel_all_requests; only the last may fail.
  ghost predicate Cancels(g: Registry, limits: Limits, m: ModelId, steps: seq<Removal>, next: Registry, r: Outcome<()>)
    decreases |steps|
  {
    if steps == [] then next == g && r == Ok(())
    else if |steps| == 1 then CancelStep(g, limits, m, steps[0], next, r)
    else
      && m in g.models && HasRequest(g, steps[0].request)
      && var first := CancelLeast(g, limits, m, steps[0]);
         && CancelStep(g, limits, m, steps[0], first.next, Ok(()))
         && Cancels(first.next, limits, m, steps[1..], next, r)
  }

  lemma {:induction false} CancelsThen(g: Registry, limits: Limits, m: ModelId, steps: seq<Removal>, before: Registry, step: Removal,
                                       next: Registry, r: Outcome<()>)
    requires Cancels(g, limits, m, steps, before, Ok(())) && CancelStep(before, limits, m, step, next, r)
    ensures Cancels(g, limits, m, steps + [step], next, r)
    decreases |steps|
  {
    hide CancelLeast, HasRequest;
    if steps != [] {
      var first := CancelLeast(g, limits, m, steps[0]).next;
      assert (steps + [step])[1..] == steps[1..] + [step];
      if |steps| == 1 {
        assert steps[1..] == [];
      } else {
        CancelsThen(first, limits, m, steps[1..], before, step, next, r);
      }
    }
  }

  // ----- Inspecting quarantine -----

  ghost predicate SequenceHeld(g: Registry, m: ModelId, r: RequestId) {
    m in g.models && r in g.models[m].pendingSequences
  }

  // The retry state of the first quarantined resource: the least sequence by model and
  // request, or without one the least model.
  ghost predicate FirstHeld(g: Registry, limits: Limits, state: RetryState) {
    && state.maximum == limits.maximumAttempts
    && match state.resource
       case SequenceResource(m, r, sid) =>
         && SequenceHeld(g, m, r) && (forall m', r' :: SequenceHeld(g, m', r') ==> m < m' || (m == m' && r <= r'))
         && var pending := g.models[m].pendingSequences[r];
            sid == pending.sequenceId && state.failure == pending.failure && state.attempts == pending.attempts
       case ModelResource(m) =>
         && (forall m', r' :: !SequenceHeld(g, m', r'))
         && m in g.pendingModels && (forall m' :: m' in g.pendingModels ==> m <= m')
         && state.failure == g.pendingModels[m].failure && state.attempts == g.pendingModels[m].attempts
  }

  // request_cleanup_state.
  function CleanupState(g: Registry, limits: Limits, r: RequestId): Option<RetryState> {
    if r !in g.pendingRequestIndex then None
    else
      var m := g.pendingRequestIndex[r];
      if m !in g.models || r !in g.models[m].pendingSequences then None
      else
        var pending := g.models[m].pendingSequences[r];
        Some(RetryState(SequenceResource(m, r, pending.sequenceId), pending.failure, pending.attempts, limits.maximumAttempts))
  }

  // The inspection answers exactly for quarantined requests.
  lemma CleanupStateIsExact(g: Registry, limits: Limits, r: RequestId)
    requires IndicesConsistent(g, limits)
    ensures CleanupState(g, limits, r).Some? <==> r in g.pendingRequestIndex
  {
    hide RequestsIndexed, SequencesIndexed, PendingSequencesIndexed;
  }

  // A model that shutdown has drained but not yet released: only quarantined
  // sequences keep it resident.
  ghost predicate OnlyQuarantineLeft(slot: ModelSlot) {
    slot.requests == map[] && slot.pendingSequences != map[] && slot.lifecycle == Unloading
  }

  // If every resident model is in that state, one successful poll keeps it so.
  lemma PollKeepsDrained(g: Registry, limits: Limits, c: Cleanup, released: bool, unloaded: bool)
    requires NextCleanup(g, limits, c)
    requires c.RetryOf? ==> HasQuarantined(g, c.model, c.request)
    requires Drained(g)
    requires CleanupEffect(g, limits, c, released, unloaded).result.Ok?
    ensures var next := CleanupEffect(g, limits, c, released, unloaded).next;
            Drained(next) && next.requestIndex == g.requestIndex
  {
    hide Minus, NextCleanup, ModelAttemptsLeft, SequenceAttemptsLeft, Release;
    if c.RetryOf? && released {
      var dropped, failure := DropQuarantined(g, c.model, c.request), g.models[c.model].pendingSequences[c.request].failure;
      ReleaseOnModel(dropped, limits, c.model, failure.primaryOperation, failure.primaryFailure, unloaded);
      ReleaseModels(dropped, limits, c.model, failure.primaryOperation, failure.primaryFailure, unloaded);
      ReleaseIsQuiet(dropped, limits, c.model, failure.primaryOperation, failure.primaryFailure, unloaded);
    }
  }

  // absent_unload_receipt: what an unload answers for a model that is not resident.
  function AbsentAnswer(g: Registry, limits: Limits, handle: ModelHandle): Outcome<UnloadReceipt> {
    if handle.id !in g.generations then Err(ModelNotLoaded(handle.id))
    else if g.generations[handle.id] != handle.generation then Err(StaleModelHandle(handle, ModelHandle(handle.id, g.generations[handle.id])))
    else if handle.id in g.pendingModels then
      var pending := g.pendingModels[handle.id];
      Err(RetentionError(RetryState(ModelResource(handle.id), pending.failure, pending.attempts, limits.maximumAttempts)))
    else Ok(UnloadReceipt(handle, AlreadyAbsent, 0))
  }

  // The models poll_unload_transition acts on -----

  // What an unload of model m may do: whatever it answers, nothing of other models
  // changes and nothing is admitted or executed; "done" means the model is gone for good.
  ghost predicate UnloadOutcome(g: Registry, m: ModelId, next: Registry, r: Outcome<UnloadReceipt>) {
    && Quiet(g, next)
    && OthersKept(g, next, m)
    && (r.Ok? && r.value.status == UnloadDone ==>
          m in g.models && r.value.handle == g.models[m].handle && m !in next.models && m !in next.pendingModels)
    && (r.Ok? && r.value.status == StillDraining ==>
          && m in g.models && m in next.models && g.models[m].lifecycle.Active? && next.models[m].lifecycle.Draining?
          && next.models[m].requests == g.models[m].requests && next.pendingModels == g.pendingModels)
    && (r.Ok? && r.value.status == AlreadyAbsent ==> next == g && m !in g.models)
  }

  // What an unload answers: absent or stale handles change nothing; an idle model is
  // released; a busy one refuses, drains or cancels exactly as the policy says.
  ghost predicate UnloadMeets(g: Registry, limits: Limits, handle: ModelHandle, policy: UnloadPolicy, now: nat, next: Registry, r: Outcome<UnloadReceipt>) {
    if handle.id !in g.models then next == g && r == AbsentAnswer(g, limits, handle)
    else if g.models[handle.id].handle != handle then next == g && r == Err(StaleModelHandle(handle, g.models[handle.id].handle))
    else
      match g.models[handle.id].lifecycle
      case Ready => r.Ok? ==> r.value == UnloadReceipt(handle, UnloadDone, 0)
      case Active(n) =>
        (match policy
         case RejectIfBusy => next == g && r == Err(LifecycleFailed(Busy(n)))
         case Drain(timeout) =>
           && r == Ok(UnloadReceipt(handle, StillDraining, 0))
           && handle.id in next.models && next.models[handle.id].lifecycle == Draining(n, DrainWindow(now, timeout))
         case CancelActive => r.Ok? ==> r.value == UnloadReceipt(handle, UnloadDone, CancelledBy(g.models[handle.id])))
      case _ => next == g && r == Err(LifecycleFailed(InvalidTransition))
  }

  // Without quarantine an unload is refused for a reason or fails only with the backend.
  ghost predicate UnloadGranted(g: Registry, handle: ModelHandle, policy: UnloadPolicy, r: Outcome<UnloadReceipt>, before: seq<Event>, after: seq<Event>) {
    handle.id in g.models && CleanModel(g, handle.id) && Flawless(before, after) ==> r.Ok? || UnloadRefused(g, handle, policy, r.error)
  }

  // Why a resident model refuses an unload.
  ghost predicate UnloadRefused(g: Registry, handle: ModelHandle, policy: UnloadPolicy, error: RuntimeError)
    requires handle.id in g.models
  {
    var slot := g.models[handle.id];
    || (slot.handle != handle && error == StaleModelHandle(handle, slot.handle))
    || (slot.lifecycle.Active? && policy.RejectIfBusy? && error == LifecycleFailed(Busy(slot.lifecycle.ActiveCount())))
    || (!slot.lifecycle.Accepting() && error == LifecycleFailed(InvalidTransition))
  }

  // The models poll_unload_transition acts on, in the order it looks for them.
  function Expired(g: Registry, now: nat): set<ModelId> {
    set m | m in g.models && g.models[m].lifecycle.Draining? && g.models[m].lifecycle.window.HasExpired(now)
  }

  function BeingCancelled(g: Registry): set<ModelId> {
    set m | m in g.models && g.models[m].lifecycle.Cancelling?
  }

  function AwaitingRelease(g: Registry): set<ModelId> {
    set m | m in g.models && g.models[m].lifecycle.Unloading?
  }

  // A drain whose time is up, a cancellation to finish, a release to repeat.
  ghost predicate DrainDue(g: Registry, now: nat, m: ModelId) {
    && m in g.models
    && match g.models[m].lifecycle
       case Draining(_, window) => SaturatingSub(now, window.startedAt) >= window.timeout
       case _ => false
  }

  ghost predicate CancelDue(g: Registry, m: ModelId) {
    m in g.models && g.models[m].lifecycle.Cancelling?
  }

  ghost predicate ReleaseDue(g: Registry, m: ModelId) {
    m in g.models && g.models[m].lifecycle == Unloading
  }

  ghost predicate NothingDue(g: Registry, now: nat) {
    forall m :: !DrainDue(g, now, m) && !CancelDue(g, m) && !ReleaseDue(g, m)
  }

  // The model an unload step moves: drains first, then cancellations, then releases, and
  // among them the least.
  ghost predicate DueTransition(g: Registry, now: nat, m: ModelId) {
    || (DrainDue(g, now, m) && forall x :: DrainDue(g, now, x) ==> m <= x)
    || (CancelDue(g, m) && (forall x :: !DrainDue(g, now, x)) && forall x :: CancelDue(g, x) ==> m <= x)
    || (&& ReleaseDue(g, m) && (forall x :: !DrainDue(g, now, x)) && (forall x :: !CancelDue(g, x))
        && forall x :: ReleaseDue(g, x) ==> m <= x)
  }

  lemma DueSets(g: Registry, now: nat)
    ensures forall m :: m in Expired(g, now) <==> DrainDue(g, now, m)
    ensures forall m :: m in BeingCancelled(g) <==> CancelDue(g, m)
    ensures forall m :: m in AwaitingRelease(g) <==> ReleaseDue(g, m)
    ensures NothingDue(g, now) <==> Expired(g, now) == {} && BeingCancelled(g) == {} && AwaitingRelease(g) == {}
  {
    hide DrainWindow.HasExpired;
    forall m
      ensures m in Expired(g, now) <==> DrainDue(g, now, m)
    {
      WindowExpires(g, now, m);
    }
    hide DrainDue, CancelDue, ReleaseDue, Expired, BeingCancelled, AwaitingRelease;
  }

  lemma WindowExpires(g: Registry, now: nat, m: ModelId)
    ensures m in Expired(g, now) <==> DrainDue(g, now, m)
  {
  }

  ghost predicate Drained(g: Registry) {
    forall m :: m in g.models ==> OnlyQuarantineLeft(g.models[m])
  }

  lemma RetryIsQuiet(g: Registry, m: ModelId, r: RequestId)
    requires HasQuarantined(g, m, r)
    ensures Quiet(g, RetrySequence(g, m, r)) && Quiet(g, DropQuarantined(g, m, r))
  {
    hide Minus;
  }

  lemma RetryModelIsQuiet(g: Registry, m: ModelId)
    requires m in g.pendingModels
    ensures Quiet(g, RetryModel(g, m)) && Quiet(g, DropPendingModel(g, m))
  {
    hide Minus;
  }

  // Exactly when poll_cleanup reports an error: it released one of several quarantined
  // sequences of a model that is waiting to be unloaded. The sequence is gone all the same.
  lemma PollRejectedExactly(g: Registry, limits: Limits, c: Cleanup, released: bool, unloaded: bool)
    requires NextCleanup(g, limits, c)
    requires c.RetryOf? ==> HasQuarantined(g, c.model, c.request) && SlotShaped(c.model, g.models[c.model], limits)
    ensures CleanupEffect(g, limits, c, released, unloaded).result.Err?
            <==> c.RetryOf? && released && g.models[c.model].lifecycle == Unloading
                 && |g.models[c.model].pendingSequences| > 1
  {
    hide Release, NextCleanup, DropQuarantined;
    if c.RetryOf? && released && g.models[c.model].lifecycle == Unloading {
      var failure := g.models[c.model].pendingSequences[c.request].failure;
      WithoutKey(g.models[c.model].pendingSequences, c.request);
      DropQuarantinedLeaves(g, c.model, c.request);
      ReleaseRejectedExactly(DropQuarantined(g, c.model, c.request), limits, c.model,
                             failure.primaryOperation, failure.primaryFailure, unloaded);
    }
  }

  lemma DropQuarantinedLeaves(g: Registry, m: ModelId, r: RequestId)
    requires HasQuarantined(g, m, r)
    ensures var next := DropQuarantined(g, m, r);
            && m in next.models && next.models[m].requests == g.models[m].requests
            && next.models[m].pendingSequences == g.models[m].pendingSequences - {r}
            && next.models[m].lifecycle == g.models[m].lifecycle
  {
    hide Minus;
  }

  lemma ReleaseRejectedExactly(g: Registry, limits: Limits, m: ModelId, operation: RuntimeOperation,
                               failure: FailureClass, unloaded: bool)
    requires m in g.models
    ensures var e := Release(g, limits, m, operation, failure, unloaded);
            e.result.Err? && !e.result.error.RetainsResource() <==> !Releasable(g, m) || g.models[m].lifecycle != Unloading
  {
    hide DropModel, QuarantineModel;
  }

  // A poll admits and executes nothing, and its only error is a model that still has
  // other quarantined sequences after one of them was released.
  lemma PollIsQuiet(g: Registry, limits: Limits, c: Cleanup, released: bool, unloaded: bool)
    requires NextCleanup(g, limits, c)
    requires c.RetryOf? ==> HasQuarantined(g, c.model, c.request)
    ensures Quiet(g, CleanupEffect(g, limits, c, released, unloaded).next)
    ensures CleanupEffect(g, limits, c, released, unloaded).result.Err? ==>
              CleanupEffect(g, limits, c, released, unloaded).result.error == LifecycleFailed(InvalidTransition)
  {
    QuietReflexive(g, 0);
    match c {
      case NothingToRetry =>
      case RetryOf(m, r) => RetryOfIsQuiet(g, limits, m, r, released, unloaded);
      case RetryOfModel(m) => RetryModelIsQuiet(g, m);
    }
    hide Quiet, Release, Minus;
  }

  lemma RetryOfIsQuiet(g: Registry, limits: Limits, m: ModelId, r: RequestId, released: bool, unloaded: bool)
    requires NextCleanup(g, limits, RetryOf(m, r)) && HasQuarantined(g, m, r)
    ensures var e := CleanupEffect(g, limits, RetryOf(m, r), released, unloaded);
            Quiet(g, e.next) && (e.result.Err? ==> e.result.error == LifecycleFailed(InvalidTransition))
  {
    hide Quiet, Release, Minus, NextCleanup, OthersKept;
    var failure := g.models[m].pendingSequences[r].failure;
    var dropped := DropQuarantined(g, m, r);
    var release := Release(dropped, limits, m, failure.primaryOperation, failure.primaryFailure, unloaded);
    RetryIsQuiet(g, m, r);
    ReleaseIsQuiet(dropped, limits, m, failure.primaryOperation, failure.primaryFailure, unloaded);
    ReleaseOnModel(dropped, limits, m, failure.primaryOperation, failure.primaryFailure, unloaded);
    QuietTransitive(g, dropped, release.next);
  }

  // ----- Shutting down -----

  ghost predicate NothingQuarantined(g: Registry) {
    g.pendingModels == map[] && forall m :: m in g.models ==> g.models[m].pendingSequences == map[]
  }

  // Success means nothing is owned any more. The two failures are exhausted retries,
  // with no request left active and nothing left to retry, and a model that lost its
  // last request, or a quarantined sequence, while others of its sequences were still
  // quarantined.
  ghost predicate ShutdownOutcome(g: Registry, limits: Limits, next: Registry, r: Outcome<(nat, nat)>) {
    && Quiet(g, next)
    && (r.Ok? ==> next.models == map[] && next.pendingModels == map[]
                  && next.requestIndex == map[] && next.pendingRequestIndex == map[])
    && (r.Err? ==> r.error == LifecycleFailed(InvalidTransition) || r.error.CleanupRetryExhausted?)
    && (r.Err? && r.error.CleanupRetryExhausted? ==>
          && r.error.state.attempts == limits.maximumAttempts
          && next.requestIndex == map[]
          && Drained(next)
          && NextCleanup(next, limits, NothingToRetry))
  }
}
