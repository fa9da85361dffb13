// Shutdown as a machine of small steps, each making at most two backend calls, and
// exactly which registries it can fail on with a lifecycle error (runtime.rs:1303-1403).
module ShutdownSpec {
  import opened Common
  import opened Footprints
  import opened Lifecycle
  import opened RuntimeTypes
  import opened Registry
  import opened RegistryIndices
  import opened RegistrySteps
  import opened RegistryModelSteps
  import opened RuntimeSpec

  // One step, with the backend's answers to the calls it makes.
  datatype Move =
    | NextModel(model: ModelId)
    | AskToUnload(model: ModelId)
    | CancelNext(model: ModelId, request: RequestId, destroyed: bool, unloaded: bool)
    | LetModelGo(model: ModelId, unloaded: bool)
    | PollOnce(cleanup: Cleanup, released: bool, unloaded: bool)

  datatype Progress = Going | Finished | Rejected

  // Where shutdown stands: the models its first loop has still to visit, and whether
  // it is over. Retries are polled once no model is left to visit.
  datatype Conf = Conf(g: Registry, todo: set<ModelId>, progress: Progress)

  ghost function Start(g: Registry): Conf {
    Conf(g, g.models.Keys, Going)
  }

  ghost predicate Enabled(c: Conf, limits: Limits, move: Move) {
    && c.progress == Going
    && match move
       case NextModel(m) =>
         && IsLeast(m, c.todo)
         && (m in c.g.models ==>
               && !c.g.models[m].lifecycle.Accepting()
               && c.g.models[m].requests == map[]
               && !(Releasable(c.g, m) && c.g.models[m].lifecycle == Unloading))
       case AskToUnload(m) =>
         IsLeast(m, c.todo) && m in c.g.models && c.g.models[m].lifecycle.Accepting() && c.g.models[m].lifecycle.WellFormed()
       case CancelNext(m, r, _, _) =>
         && IsLeast(m, c.todo) && m in c.g.models && !c.g.models[m].lifecycle.Accepting()
         && IsLeast(r, c.g.models[m].requests.Keys)
         && HasRequest(c.g, r) && c.g.requestIndex[r] == m
       case LetModelGo(m, _) =>
         IsLeast(m, c.todo) && Releasable(c.g, m) && c.g.models[m].lifecycle == Unloading
       case PollOnce(cleanup, _, _) =>
         && c.todo == {}
         && NextCleanup(c.g, limits, cleanup)
         && (cleanup.RetryOf? ==> HasQuarantined(c.g, cleanup.model, cleanup.request))
  }

  // A retained resource does not stop shutdown; any other error does.
  ghost function Judge<T>(result: Outcome<T>): Progress {
    if result.Err? && !result.error.RetainsResource() then Rejected else Going
  }

  ghost function Asked(g: Registry, m: ModelId): Registry
    requires m in g.models && g.models[m].lifecycle.WellFormed()
  {
    g.(models := g.models[m := g.models[m].(lifecycle := AfterUnloadRequest(g.models[m].lifecycle, CancelActive, 0).next)])
  }

  ghost function Moved(c: Conf, limits: Limits, move: Move): Conf
    requires Enabled(c, limits, move)
  {
    match move
    case NextModel(m) => c.(todo := c.todo - {m})
    case AskToUnload(m) => c.(g := Asked(c.g, m))
    case CancelNext(_, r, destroyed, unloaded) =>
      var e := Remove(c.g, limits, r, ShutdownOperation, ShutdownClass, destroyed, unloaded);
      Conf(e.next, c.todo, Judge(e.result))
    case LetModelGo(m, unloaded) =>
      var e := Release(c.g, limits, m, ShutdownOperation, ShutdownClass, unloaded);
      Conf(e.next, c.todo - {m}, Judge(e.result))
    case PollOnce(cleanup, released, unloaded) =>
      var e := CleanupEffect(c.g, limits, cleanup, released, unloaded);
      Conf(e.next, c.todo, if e.result.Err? then Rejected else if cleanup == NothingToRetry then Finished else Going)
  }

  // A run: the state after the given moves, or nothing if one of them was not due.
  ghost function Ran(c: Conf, limits: Limits, moves: seq<Move>): Option<Conf>
    decreases |moves|
  {
    if moves == [] then Some(c)
    else if !Enabled(c, limits, moves[0]) then None
    else Ran(Moved(c, limits, moves[0]), limits, moves[1..])
  }

  // Where an answer of shutdown leaves its run.
  ghost function Ended<T>(result: Outcome<T>): Progress {
    if result.Ok? || result.error.CleanupRetryExhausted? then Finished else Rejected
  }

  // The moves lead from a registry and the models still to visit to another such pair.
  ghost predicate Leads(limits: Limits, g: Registry, todo: set<ModelId>, moves: seq<Move>,
                        next: Registry, left: set<ModelId>, progress: Progress)
  {
    Ran(Conf(g, todo, Going), limits, moves) == Some(Conf(next, left, progress))
  }

  lemma {:induction false} RanThen(c: Conf, limits: Limits, moves: seq<Move>, more: seq<Move>)
    requires Ran(c, limits, moves).Some?
    ensures Ran(c, limits, moves + more) == Ran(Ran(c, limits, moves).value, limits, more)
    decreases |moves|
  {
    hide Enabled, Moved;
    if moves == [] {
      assert [] + more == more;
    } else {
      RanThen(Moved(c, limits, moves[0]), limits, moves[1..], more);
      assert (moves + more)[1..] == moves[1..] + more;
    }
  }

  lemma LeadsNowhere(limits: Limits, g: Registry, todo: set<ModelId>)
    ensures Leads(limits, g, todo, [], g, todo, Going)
  {
  }

  lemma LeadsThen(limits: Limits, g: Registry, todo: set<ModelId>, moves: seq<Move>, mid: Registry, left: set<ModelId>,
                  more: seq<Move>, next: Registry, rest: set<ModelId>, progress: Progress)
    requires Leads(limits, g, todo, moves, mid, left, Going) && Leads(limits, mid, left, more, next, rest, progress)
    ensures Leads(limits, g, todo, moves + more, next, rest, progress)
  {
    hide Ran;
    RanThen(Conf(g, todo, Going), limits, moves, more);
  }

  lemma LeadsOne(limits: Limits, g: Registry, todo: set<ModelId>, move: Move)
    requires Enabled(Conf(g, todo, Going), limits, move)
    ensures var next := Moved(Conf(g, todo, Going), limits, move);
            Leads(limits, g, todo, [move], next.g, next.todo, next.progress)
  {
    hide Enabled, Moved;
    assert [move][1..] == [];
    assert Ran(Moved(Conf(g, todo, Going), limits, move), limits, []) == Some(Moved(Conf(g, todo, Going), limits, move));
  }

  // ----- The exact condition -----

  // Nothing shutdown does to this model can end in a lifecycle error: it holds at most
  // one sequence, or only quarantined ones whose attempts are used up.
  ghost predicate SafeSlot(slot: ModelSlot, maximum: nat) {
    || |slot.requests| + |slot.pendingSequences| <= 1
    || (slot.requests == map[] && RetryableRequests(slot, maximum) == {})
  }

  ghost predicate Safe(g: Registry, limits: Limits) {
    forall m :: m in g.models ==> SafeSlot(g.models[m], limits.maximumAttempts)
  }

  ghost predicate Shaped(g: Registry, limits: Limits) {
    ModelsConsistent(g, limits) && IndicesConsistent(g, limits)
  }

  ghost predicate CanReject(c: Conf, limits: Limits) {
    exists moves :: Ran(c, limits, moves).Some? && Ran(c, limits, moves).value.progress == Rejected
  }

  // ----- Every move keeps the registry's shape -----

  lemma AskedShaped(g: Registry, limits: Limits, m: ModelId)
    requires Shaped(g, limits) && m in g.models && g.models[m].lifecycle.Accepting() && g.models[m].lifecycle.WellFormed()
    ensures Shaped(Asked(g, m), limits)
  {
    hide SlotShaped, SlotTotal, ModelsConsistent, RequestsIndexed, SequencesIndexed, PendingIndexed, PendingSequencesIndexed;
    var slot := Asked(g, m).models[m];
    SlotAt(g, limits, m);
    RelabelledSlot(m, g.models[m], slot, limits);
    SlotReplacedModels(g, Asked(g, m), limits, m, slot);
    ActiveKept(g.models, g.requestIndex, g.sequenceIndex, m, slot);
    QuarantineKept(g.models, g.pendingRequestIndex, g.pendingSequenceIndex, m, slot);
  }

  lemma RemoveShaped(g: Registry, limits: Limits, r: RequestId, operation: RuntimeOperation,
                     failure: FailureClass, destroyed: bool, unloaded: bool)
    requires Shaped(g, limits) && HasRequest(g, r) && limits.maximumAttempts >= 1
    ensures Shaped(Remove(g, limits, r, operation, failure, destroyed, unloaded).next, limits)
  {
    hide ModelsConsistent, IndicesConsistent, DropRequest, QuarantineRequest, Release, AfterFinish;
    if destroyed {
      DropRequestModels(g, limits, r);
      DropRequestIndices(g, limits, r);
      ReleaseShaped(DropRequest(g, r), limits, g.requestIndex[r], operation, failure, unloaded);
    } else {
      var report := CleanupReport(operation, failure, SequenceDestruction, SequenceFailure);
      QuarantineRequestModels(g, limits, r, report);
      QuarantineRequestIndices(g, limits, r, report);
    }
  }

  lemma ReleaseShaped(g: Registry, limits: Limits, m: ModelId, operation: RuntimeOperation, failure: FailureClass, unloaded: bool)
    requires Shaped(g, limits) && limits.maximumAttempts >= 1
    ensures Shaped(Release(g, limits, m, operation, failure, unloaded).next, limits)
  {
    hide ModelsConsistent, IndicesConsistent, DropModel, QuarantineModel;
    if Releasable(g, m) {
      var report := CleanupReport(operation, failure, ModelUnloading, SynchronizationFailure);
      DropModelModels(g, limits, m);
      DropModelIndices(g, limits, m);
      QuarantineModelModels(g, limits, m, report);
      QuarantineModelIndices(g, limits, m, report);
    }
  }

  lemma PollShaped(g: Registry, limits: Limits, c: Cleanup, released: bool, unloaded: bool)
    requires Shaped(g, limits) && limits.maximumAttempts >= 1
    requires NextCleanup(g, limits, c) && (c.RetryOf? ==> HasQuarantined(g, c.model, c.request))
    ensures Shaped(CleanupEffect(g, limits, c, released, unloaded).next, limits)
  {
    hide ModelsConsistent, IndicesConsistent, DropQuarantined, RetrySequence, RetryModel, DropPendingModel, Release;
    match c
    case NothingToRetry =>
    case RetryOf(m, r) =>
      if released {
        var failure := g.models[m].pendingSequences[r].failure;
        DropQuarantinedModels(g, limits, m, r);
        DropQuarantinedIndices(g, limits, m, r);
        ReleaseShaped(DropQuarantined(g, m, r), limits, m, failure.primaryOperation, failure.primaryFailure, unloaded);
      } else {
        RetrySequenceModels(g, limits, m, r);
        RetrySequenceIndices(g, limits, m, r);
      }
    case RetryOfModel(m) =>
      RetryModelModels(g, limits, m);
      RetryModelIndices(g, limits, m);
      DropPendingModelModels(g, limits, m);
      DropPendingModelIndices(g, limits, m);
  }

  lemma MoveShaped(c: Conf, limits: Limits, move: Move)
    requires Shaped(c.g, limits) && limits.maximumAttempts >= 1 && Enabled(c, limits, move)
    ensures Shaped(Moved(c, limits, move).g, limits)
  {
    hide Shaped, Remove, Release, CleanupEffect, Asked, NextCleanup;
    match move
    case NextModel(_) =>
    case AskToUnload(m) => AskedShaped(c.g, limits, m);
    case CancelNext(_, r, destroyed, unloaded) => RemoveShaped(c.g, limits, r, ShutdownOperation, ShutdownClass, destroyed, unloaded);
    case LetModelGo(m, unloaded) => ReleaseShaped(c.g, limits, m, ShutdownOperation, ShutdownClass, unloaded);
    case PollOnce(cleanup, released, unloaded) => PollShaped(c.g, limits, cleanup, released, unloaded);
  }

  // ----- A safe registry is never rejected -----

  // What one removal leaves in the slot it acted on.
  lemma RemovalCounts(g: Registry, limits: Limits, r: RequestId, operation: RuntimeOperation,
                      failure: FailureClass, destroyed: bool, unloaded: bool)
    requires HasRequest(g, r) && SlotShaped(g.requestIndex[r], SlotOf(g, r), limits)
    ensures var m, e := g.requestIndex[r], Remove(g, limits, r, operation, failure, destroyed, unloaded);
            m in e.next.models ==>
              && |e.next.models[m].requests| == |g.models[m].requests| - 1
              && (destroyed ==> e.next.models[m].pendingSequences == g.models[m].pendingSequences)
              && (!destroyed ==> |e.next.models[m].pendingSequences| == |g.models[m].pendingSequences| + 1)
  {
    hide DropRequest, QuarantineRequest, Release, AfterFinish, Quarantined;
    var m, slot := g.requestIndex[r], SlotOf(g, r);
    WithoutKey(slot.requests, r);
    if destroyed {
      DroppedSlot(g, r);
      ReleaseOnModel(DropRequest(g, r), limits, m, operation, failure, unloaded);
    } else {
      FailedSlot(g, r, CleanupReport(operation, failure, SequenceDestruction, SequenceFailure));
      WithNewKey(slot.pendingSequences, r, Quarantined(slot.requests[r], r, CleanupReport(operation, failure, SequenceDestruction, SequenceFailure)));
    }
  }

  lemma FailedSlot(g: Registry, r: RequestId, report: CleanupReport)
    requires HasRequest(g, r)
    ensures var m, next := g.requestIndex[r], QuarantineRequest(g, r, report);
            && m in next.models
            && next.models[m].requests == g.models[m].requests - {r}
            && next.models[m].pendingSequences == g.models[m].pendingSequences[r := Quarantined(g.models[m].requests[r], r, report)]
            && next.models[m].lifecycle == AfterFinish(g.models[m].lifecycle).next
  {
    hide Minus, AfterFinish, Quarantined;
  }

  lemma CancelSafe(c: Conf, limits: Limits, m: ModelId, r: RequestId, destroyed: bool, unloaded: bool)
    requires Shaped(c.g, limits) && Safe(c.g, limits) && Enabled(c, limits, CancelNext(m, r, destroyed, unloaded))
    ensures var next := Moved(c, limits, CancelNext(m, r, destroyed, unloaded));
            Safe(next.g, limits) && next.progress == Going
  {
    hide SlotShaped, SlotTotal, ModelsConsistent, IndicesConsistent, Remove, Quiet;
    var g, slot := c.g, c.g.models[m];
    SlotAt(g, limits, m);
    assert |slot.requests| == 1 && slot.pendingSequences == map[];
    RemovalCounts(g, limits, r, ShutdownOperation, ShutdownClass, destroyed, unloaded);
    RemoveRejectedExactly(g, limits, r, ShutdownOperation, ShutdownClass, destroyed, unloaded);
    RemoveIsQuiet(g, limits, r, ShutdownOperation, ShutdownClass, destroyed, unloaded);
    RemovalJudged(g, limits, r, destroyed, unloaded);
  }

  // The only error that stops shutdown while it cancels is the lifecycle's.
  lemma RemovalJudged(g: Registry, limits: Limits, r: RequestId, destroyed: bool, unloaded: bool)
    requires HasRequest(g, r) && SlotShaped(g.requestIndex[r], SlotOf(g, r), limits)
    ensures var result := Remove(g, limits, r, ShutdownOperation, ShutdownClass, destroyed, unloaded).result;
            Judge(result) == Rejected <==> result == Err(LifecycleFailed(InvalidTransition))
  {
    hide Remove, OneLess;
    RemoveOnModel(g, limits, r, ShutdownOperation, ShutdownClass, destroyed, unloaded);
  }

  // ----- Retries -----

  // Retrying model m's sequence touches that model only, and leaves it with no more
  // quarantined sequences than before.
  lemma RetryLeaves(g: Registry, limits: Limits, m: ModelId, r: RequestId, released: bool, unloaded: bool)
    requires NextCleanup(g, limits, RetryOf(m, r)) && HasQuarantined(g, m, r)
    ensures var e := CleanupEffect(g, limits, RetryOf(m, r), released, unloaded);
            && OthersKept(g, e.next, m)
            && (m in e.next.models ==>
                  && e.next.models[m].requests == g.models[m].requests
                  && e.next.models[m].lifecycle == g.models[m].lifecycle
                  && |e.next.models[m].pendingSequences| == |g.models[m].pendingSequences| - if released then 1 else 0)
            && (!released ==> m in e.next.models && e.result.Ok?)
  {
    hide OthersKept, Release, NextCleanup, DropQuarantined, RetrySequence;
    var failure := g.models[m].pendingSequences[r].failure;
    var dropped := DropQuarantined(g, m, r);
    DropQuarantinedLeaves(g, m, r);
    WithoutKey(g.models[m].pendingSequences, r);
    RetryTouches(g, m, r);
    ReleaseIsQuiet(dropped, limits, m, failure.primaryOperation, failure.primaryFailure, unloaded);
    ReleaseOnModel(dropped, limits, m, failure.primaryOperation, failure.primaryFailure, unloaded);
    OthersKeptTransitive(g, dropped, Release(dropped, limits, m, failure.primaryOperation, failure.primaryFailure, unloaded).next, m);
  }

  lemma RetryTouches(g: Registry, m: ModelId, r: RequestId)
    requires HasQuarantined(g, m, r)
    ensures OthersKept(g, DropQuarantined(g, m, r), m) && OthersKept(g, RetrySequence(g, m, r), m)
    ensures var next := RetrySequence(g, m, r);
            && m in next.models && next.models[m].requests == g.models[m].requests
            && next.models[m].lifecycle == g.models[m].lifecycle
            && |next.models[m].pendingSequences| == |g.models[m].pendingSequences|
  {
    hide Minus;
    assert RetrySequence(g, m, r).models[m].pendingSequences.Keys == g.models[m].pendingSequences.Keys;
  }

  lemma PollSafe(c: Conf, limits: Limits, cleanup: Cleanup, released: bool, unloaded: bool)
    requires Shaped(c.g, limits) && Safe(c.g, limits) && Enabled(c, limits, PollOnce(cleanup, released, unloaded))
    ensures var next := Moved(c, limits, PollOnce(cleanup, released, unloaded));
            Safe(next.g, limits) && next.progress != Rejected
  {
    hide SlotShaped, SlotTotal, ModelsConsistent, IndicesConsistent, CleanupEffect, OthersKept;
    match cleanup
    case RetryOf(m, r) =>
      SlotAt(c.g, limits, m);
      assert r in RetryableRequests(c.g.models[m], limits.maximumAttempts);
      RetryLeaves(c.g, limits, m, r, released, unloaded);
      PollRejectedExactly(c.g, limits, cleanup, released, unloaded);
      SafeElsewhere(c.g, CleanupEffect(c.g, limits, cleanup, released, unloaded).next, limits, m);
    case RetryOfModel(m) =>
      ModelRetryOnly(c.g, limits, cleanup, released, unloaded);
      PollRejectedExactly(c.g, limits, cleanup, released, unloaded);
    case NothingToRetry =>
      ModelRetryOnly(c.g, limits, cleanup, released, unloaded);
      PollRejectedExactly(c.g, limits, cleanup, released, unloaded);
  }

  lemma ModelRetryOnly(g: Registry, limits: Limits, c: Cleanup, released: bool, unloaded: bool)
    requires NextCleanup(g, limits, c) && !c.RetryOf?
    ensures CleanupEffect(g, limits, c, released, unloaded).next.models == g.models
  {
    hide NextCleanup, Minus;
  }

  lemma SafeElsewhere(g: Registry, next: Registry, limits: Limits, m: ModelId)
    requires Safe(g, limits) && OthersKept(g, next, m)
    requires m in next.models ==> SafeSlot(next.models[m], limits.maximumAttempts)
    ensures Safe(next, limits)
  {
  }

  lemma MoveSafe(c: Conf, limits: Limits, move: Move)
    requires Shaped(c.g, limits) && Safe(c.g, limits) && Enabled(c, limits, move)
    ensures Safe(Moved(c, limits, move).g, limits) && Moved(c, limits, move).progress != Rejected
  {
    hide Shaped, Remove, CleanupEffect, NextCleanup, Quiet;
    match move
    case NextModel(_) =>
    case AskToUnload(_) =>
    case CancelNext(m, r, destroyed, unloaded) => CancelSafe(c, limits, m, r, destroyed, unloaded);
    case LetModelGo(m, unloaded) =>
      ReleaseRejectedExactly(c.g, limits, m, ShutdownOperation, ShutdownClass, unloaded);
      ReleaseModels(c.g, limits, m, ShutdownOperation, ShutdownClass, unloaded);
    case PollOnce(cleanup, released, unloaded) => PollSafe(c, limits, cleanup, released, unloaded);
  }

  // Whatever the backend answers, shutdown of a safe registry meets no lifecycle error.
  lemma {:induction false} SafeNeverRejected(c: Conf, limits: Limits, moves: seq<Move>)
    requires Shaped(c.g, limits) && Safe(c.g, limits) && limits.maximumAttempts >= 1 && c.progress != Rejected
    requires Ran(c, limits, moves).Some?
    ensures Ran(c, limits, moves).value.progress != Rejected
    decreases |moves|
  {
    hide Shaped, Safe, Enabled, Moved;
    if moves != [] {
      MoveShaped(c, limits, moves[0]);
      MoveSafe(c, limits, moves[0]);
      SafeNeverRejected(Moved(c, limits, moves[0]), limits, moves[1..]);
    }
  }

  // ----- An unsafe registry can be rejected -----

  // Shutdown is under way, the models it has visited hold nothing but quarantine, and
  // model `bad` is not safe.
  ghost predicate Hunting(c: Conf, limits: Limits, bad: ModelId) {
    && c.progress == Going
    && Shaped(c.g, limits)
    && (forall x :: x in c.g.models ==> x in c.todo || OnlyQuarantineLeft(c.g.models[x]))
    && bad in c.g.models && !SafeSlot(c.g.models[bad], limits.maximumAttempts)
  }

  // The model the first loop visits next, whether it still accepts work, and the
  // requests it still has to cancel there.
  ghost function Head(c: Conf): (m: ModelId)
    requires c.todo != {}
    ensures IsLeast(m, c.todo)
  {
    LeastExists(c.todo);
    var m :| IsLeast(m, c.todo);
    m
  }

  ghost function HeadAccepting(c: Conf): nat {
    if c.todo != {} && Head(c) in c.g.models && c.g.models[Head(c)].lifecycle.Accepting() then 1 else 0
  }

  ghost function HeadRequests(c: Conf): nat {
    if c.todo != {} && Head(c) in c.g.models then |c.g.models[Head(c)].requests| else 0
  }

  ghost predicate Nearer(next: Conf, c: Conf) {
    || (next.todo < c.todo && |next.todo| < |c.todo|)
    || (&& next.todo == c.todo
        && (HeadAccepting(next) < HeadAccepting(c)
            || (HeadAccepting(next) == HeadAccepting(c) && HeadRequests(next) < HeadRequests(c))))
  }

  lemma CanRejectBack(c: Conf, limits: Limits, move: Move)
    requires Enabled(c, limits, move)
    requires Moved(c, limits, move).progress == Rejected || CanReject(Moved(c, limits, move), limits)
    ensures CanReject(c, limits)
  {
    hide Enabled, Moved;
    var next := Moved(c, limits, move);
    var moves;
    if next.progress == Rejected {
      moves := [];
    } else {
      moves :| Ran(next, limits, moves).Some? && Ran(next, limits, moves).value.progress == Rejected;
    }
    assert ([move] + moves)[1..] == moves;
    assert Ran(c, limits, [move] + moves) == Ran(next, limits, moves);
  }

  lemma AskHead(c: Conf, limits: Limits, bad: ModelId)
    requires Hunting(c, limits, bad)
    requires c.todo != {} && Head(c) in c.g.models && c.g.models[Head(c)].lifecycle.Accepting()
    ensures var move := AskToUnload(Head(c));
            Enabled(c, limits, move)
            && (Shaped(Moved(c, limits, move).g, limits) ==> Hunting(Moved(c, limits, move), limits, bad) && Nearer(Moved(c, limits, move), c))
  {
    hide SlotTotal, ModelsConsistent, IndicesConsistent, Head;
    var m := Head(c);
    SlotAt(c.g, limits, m);
    assert IsLeast(m, c.todo);
  }

  // Cancelling with a failed destruction keeps the number of sequences the model holds.
  lemma FailHead(c: Conf, limits: Limits, bad: ModelId, r: RequestId)
    requires Hunting(c, limits, bad)
    requires c.todo != {} && Head(c) in c.g.models && !c.g.models[Head(c)].lifecycle.Accepting()
    requires IsLeast(r, c.g.models[Head(c)].requests.Keys) && HasRequest(c.g, r) && c.g.requestIndex[r] == Head(c)
    requires Head(c) == bad ==> |c.g.models[bad].requests| > 1
    ensures var move := CancelNext(Head(c), r, false, true);
            Enabled(c, limits, move)
            && (Shaped(Moved(c, limits, move).g, limits) ==> Hunting(Moved(c, limits, move), limits, bad) && Nearer(Moved(c, limits, move), c))
  {
    hide SlotTotal, SlotShaped, ModelsConsistent, IndicesConsistent, Head, Remove, AfterFinish, RetryableRequests;
    FailedRemoval(c.g, limits, Head(c), r);
  }

  lemma FailedRemoval(g: Registry, limits: Limits, m: ModelId, r: RequestId)
    requires Shaped(g, limits) && HasRequest(g, r) && g.requestIndex[r] == m && !g.models[m].lifecycle.Accepting()
    ensures var e := Remove(g, limits, r, ShutdownOperation, ShutdownClass, false, true);
            && Judge(e.result) == Going && OthersKept(g, e.next, m)
            && m in e.next.models && !e.next.models[m].lifecycle.Accepting()
            && |e.next.models[m].requests| == |g.models[m].requests| - 1
            && |e.next.models[m].pendingSequences| == |g.models[m].pendingSequences| + 1
  {
    hide SlotTotal, SlotShaped, ModelsConsistent, IndicesConsistent, QuarantineRequest, Quiet, OthersKept, AfterFinish;
    var report := CleanupReport(ShutdownOperation, ShutdownClass, SequenceDestruction, SequenceFailure);
    SlotAt(g, limits, m);
    FailedSlot(g, r, report);
    NotAccepting(g.models[m].lifecycle);
    RemovalCounts(g, limits, r, ShutdownOperation, ShutdownClass, false, true);
    QuarantineRequestIsQuiet(g, r, report);
  }

  lemma NotAccepting(s: State)
    requires s.WellFormed() && !s.Accepting()
    ensures !AfterFinish(s).next.Accepting()
  {
  }

  // The last request of a model with quarantined sequences: destroying it is enough.
  lemma RejectAtHead(c: Conf, limits: Limits, bad: ModelId, r: RequestId)
    requires Hunting(c, limits, bad)
    requires c.todo != {} && Head(c) == bad && !c.g.models[bad].lifecycle.Accepting()
    requires IsLeast(r, c.g.models[bad].requests.Keys) && HasRequest(c.g, r) && c.g.requestIndex[r] == bad
    requires |c.g.models[bad].requests| == 1
    ensures var move := CancelNext(bad, r, true, true);
            Enabled(c, limits, move) && Moved(c, limits, move).progress == Rejected
  {
    hide SlotTotal, SlotShaped, ModelsConsistent, IndicesConsistent, Head, Remove;
    SlotAt(c.g, limits, bad);
    RemoveRejectedExactly(c.g, limits, r, ShutdownOperation, ShutdownClass, true, true);
    RemovalJudged(c.g, limits, r, true, true);
  }

  lemma LeaveHead(c: Conf, limits: Limits, bad: ModelId)
    requires Hunting(c, limits, bad) && c.todo != {}
    requires var m := Head(c); m in c.g.models ==>
               !c.g.models[m].lifecycle.Accepting() && c.g.models[m].requests == map[] && c.g.models[m].pendingSequences != map[]
    ensures var move := NextModel(Head(c));
            Enabled(c, limits, move) && Hunting(Moved(c, limits, move), limits, bad) && Nearer(Moved(c, limits, move), c)
  {
    hide SlotTotal, ModelsConsistent, IndicesConsistent, Head;
    var m := Head(c);
    if m in c.g.models {
      SlotAt(c.g, limits, m);
    }
    SmallerWithout(c.todo, m);
  }

  lemma SmallerWithout(s: set<ModelId>, m: ModelId)
    requires m in s
    ensures s - {m} < s && |s - {m}| < |s|
  {
  }

  lemma ReleaseHead(c: Conf, limits: Limits, bad: ModelId)
    requires Hunting(c, limits, bad) && c.todo != {} && Releasable(c.g, Head(c))
    requires !c.g.models[Head(c)].lifecycle.Accepting()
    ensures var move := LetModelGo(Head(c), false);
            Enabled(c, limits, move)
            && (Shaped(Moved(c, limits, move).g, limits) ==> Hunting(Moved(c, limits, move), limits, bad) && Nearer(Moved(c, limits, move), c))
  {
    hide SlotTotal, ModelsConsistent, IndicesConsistent, Head;
    var m := Head(c);
    SlotAt(c.g, limits, m);
    SmallerWithout(c.todo, m);
  }

  // One hostile step while there are models to visit.
  lemma VisitHead(c: Conf, limits: Limits, bad: ModelId) returns (move: Move)
    requires Hunting(c, limits, bad) && c.todo != {} && limits.maximumAttempts >= 1
    ensures Enabled(c, limits, move)
    ensures var next := Moved(c, limits, move);
            next.progress == Rejected || (Hunting(next, limits, bad) && Nearer(next, c))
  {
    hide SlotTotal, ModelsConsistent, IndicesConsistent, Head, Moved, Enabled, Nearer, RetryableRequests;
    var m := Head(c);
    if m !in c.g.models {
      move := NextModel(m);
      LeaveHead(c, limits, bad);
      return;
    }
    SlotAt(c.g, limits, m);
    var slot := c.g.models[m];
    if slot.lifecycle.Accepting() {
      move := AskToUnload(m);
      AskHead(c, limits, bad);
    } else if slot.requests != map[] {
      LeastExists(slot.requests.Keys);
      var r :| r in slot.requests.Keys && IsLeast(r, slot.requests.Keys);
      IndexedThere(c.g, limits, m, r);
      if m == bad && |slot.requests| == 1 {
        move := CancelNext(m, r, true, true);
        RejectAtHead(c, limits, bad, r);
        return;
      }
      CountPositive(slot.requests, r);
      move := CancelNext(m, r, false, true);
      FailHead(c, limits, bad, r);
    } else if slot.pendingSequences != map[] {
      move := NextModel(m);
      LeaveHead(c, limits, bad);
    } else {
      move := LetModelGo(m, false);
      ReleaseHead(c, limits, bad);
    }
    MoveShaped(c, limits, move);
  }

  lemma CountPositive<K, V>(m: map<K, V>, k: K)
    requires k in m
    ensures |m| > 0
  {
    WithoutKey(m, k);
  }

  lemma IndexedThere(g: Registry, limits: Limits, m: ModelId, r: RequestId)
    requires Shaped(g, limits) && m in g.models && r in g.models[m].requests
    ensures HasRequest(g, r) && g.requestIndex[r] == m
  {
    hide SlotTotal, ModelsConsistent, PendingIndexed, SequencesIndexed, PendingSequencesIndexed;
    HasRequestWhenIndexed(g, limits, r);
  }

  lemma NextCleanupExists(g: Registry, limits: Limits)
    ensures exists c :: NextCleanup(g, limits, c)
  {
    var models := set m | m in g.models && RetryableRequests(g.models[m], limits.maximumAttempts) != {};
    assert forall m, r :: SequenceRetryable(g, limits, m, r)
             <==> m in g.models && r in RetryableRequests(g.models[m], limits.maximumAttempts);
    assert forall m, r :: SequenceRetryable(g, limits, m, r) ==> m in models;
    if models != {} {
      LeastExists(models);
      var m :| m in models && IsLeast(m, models);
      var requests := RetryableRequests(g.models[m], limits.maximumAttempts);
      LeastExists(requests);
      var r :| r in requests && IsLeast(r, requests);
      assert NextCleanup(g, limits, RetryOf(m, r));
      return;
    }
    var pending := set m | m in g.pendingModels && g.pendingModels[m].attempts < limits.maximumAttempts;
    assert forall m :: ModelRetryable(g, limits, m) <==> m in pending;
    if pending != {} {
      LeastExists(pending);
      var m :| m in pending && IsLeast(m, pending);
      assert NextCleanup(g, limits, RetryOfModel(m));
    } else {
      assert NextCleanup(g, limits, NothingToRetry);
    }
  }

  // With only retries left, the next poll retries a sequence; one of the unsafe model's
  // would still leave others behind.
  lemma PreyIsRetryable(c: Conf, limits: Limits, bad: ModelId, cleanup: Cleanup)
    requires Hunting(c, limits, bad) && c.todo == {} && NextCleanup(c.g, limits, cleanup)
    ensures cleanup.RetryOf? && HasQuarantined(c.g, cleanup.model, cleanup.request)
    ensures SlotShaped(cleanup.model, c.g.models[cleanup.model], limits)
    ensures c.g.models[bad].lifecycle == Unloading && |c.g.models[bad].pendingSequences| > 1
    ensures c.progress == Going && bad in c.g.models && Shaped(c.g, limits)
  {
    hide SlotShaped, SlotTotal, ModelsConsistent, IndicesConsistent;
    var r :| r in RetryableRequests(c.g.models[bad], limits.maximumAttempts);
    assert SequenceRetryable(c.g, limits, bad, r);
    HasQuarantinedWhenHeld(c.g, limits, cleanup.model, cleanup.request);
    SlotAt(c.g, limits, cleanup.model);
  }

  // One hostile step while only retries are left.
  lemma PollForBad(c: Conf, limits: Limits, bad: ModelId) returns (move: Move)
    requires Hunting(c, limits, bad) && c.todo == {} && limits.maximumAttempts >= 1
    ensures Enabled(c, limits, move)
    ensures var next := Moved(c, limits, move);
            || next.progress == Rejected
            || (Hunting(next, limits, bad) && next.todo == {}
                && SequenceAttemptsLeft(next.g.models, limits.maximumAttempts) < SequenceAttemptsLeft(c.g.models, limits.maximumAttempts))
  {
    hide Hunting, Shaped, SafeSlot, SlotShaped, NextCleanup, CleanupEffect, OthersKept, SequenceAttemptsLeft;
    NextCleanupExists(c.g, limits);
    var cleanup :| NextCleanup(c.g, limits, cleanup);
    PreyIsRetryable(c, limits, bad, cleanup);
    var m := cleanup.model;
    move := PollOnce(cleanup, m == bad, true);
    PollRejectedExactly(c.g, limits, cleanup, m == bad, true);
    if m != bad {
      RetryLeaves(c.g, limits, m, cleanup.request, false, true);
      RetryUsesAttempt(c.g, limits, m, cleanup.request);
      MoveShaped(c, limits, move);
      StillHunting(c, Moved(c, limits, move), limits, bad, m);
    }
  }

  lemma RetryUsesAttempt(g: Registry, limits: Limits, m: ModelId, r: RequestId)
    requires NextCleanup(g, limits, RetryOf(m, r)) && HasQuarantined(g, m, r)
    ensures SequenceAttemptsLeft(CleanupEffect(g, limits, RetryOf(m, r), false, true).next.models, limits.maximumAttempts)
            < SequenceAttemptsLeft(g.models, limits.maximumAttempts)
  {
    assert SequenceRetryable(g, limits, m, r);
    hide SequenceAttemptsLeft, Minus, NextCleanup;
    SequenceAttemptUsed(g.models, limits.maximumAttempts, m, SlotRetried(g.models[m], r), r);
  }

  lemma StillHunting(c: Conf, next: Conf, limits: Limits, bad: ModelId, m: ModelId)
    requires Hunting(c, limits, bad) && c.todo == next.todo == {} && next.progress == Going
    requires Shaped(next.g, limits) && OthersKept(c.g, next.g, m) && m != bad
    requires m in c.g.models && m in next.g.models
    requires next.g.models[m].requests == c.g.models[m].requests && next.g.models[m].lifecycle == c.g.models[m].lifecycle
    requires |next.g.models[m].pendingSequences| == |c.g.models[m].pendingSequences|
    ensures Hunting(next, limits, bad)
  {
    hide Shaped, RetryableRequests;
  }

  // There are answers of the backend that make shutdown stop with a lifecycle error.
  lemma {:induction false} UnsafeCanReject(c: Conf, limits: Limits, bad: ModelId)
    requires Hunting(c, limits, bad) && limits.maximumAttempts >= 1
    ensures CanReject(c, limits)
    decreases |c.todo|, HeadAccepting(c), HeadRequests(c), SequenceAttemptsLeft(c.g.models, limits.maximumAttempts)
  {
    hide Hunting, Enabled, Moved, CanReject, SequenceAttemptsLeft;
    var move;
    if c.todo != {} {
      move := VisitHead(c, limits, bad);
    } else {
      move := PollForBad(c, limits, bad);
    }
    if Moved(c, limits, move).progress != Rejected {
      UnsafeCanReject(Moved(c, limits, move), limits, bad);
    }
    CanRejectBack(c, limits, move);
  }

  // Shutdown can end in a lifecycle error if and only if some resident model is unsafe.
  lemma RejectableExactly(g: Registry, limits: Limits)
    requires Shaped(g, limits) && limits.maximumAttempts >= 1
    ensures CanReject(Start(g), limits) <==> !Safe(g, limits)
  {
    hide SafeSlot, Ran, Shaped;
    if Safe(g, limits) {
      forall moves | Ran(Start(g), limits, moves).Some?
        ensures Ran(Start(g), limits, moves).value.progress != Rejected
      {
        SafeNeverRejected(Start(g), limits, moves);
      }
    } else {
      var bad :| bad in g.models && !SafeSlot(g.models[bad], limits.maximumAttempts);
      UnsafeCanReject(Start(g), limits, bad);
    }
  }

  // ----- The moves the methods make -----

  lemma CancelLeads(limits: Limits, g: Registry, todo: set<ModelId>, m: ModelId, r: RequestId, destroyed: bool, unloaded: bool)
    requires IsLeast(m, todo) && m in g.models && !g.models[m].lifecycle.Accepting()
    requires IsLeast(r, g.models[m].requests.Keys) && HasRequest(g, r) && g.requestIndex[r] == m
    ensures var e := Remove(g, limits, r, ShutdownOperation, ShutdownClass, destroyed, unloaded);
            Leads(limits, g, todo, [CancelNext(m, r, destroyed, unloaded)], e.next, todo, Judge(e.result))
  {
    hide Remove, Leads;
    LeadsOne(limits, g, todo, CancelNext(m, r, destroyed, unloaded));
  }

  lemma ReleaseLeads(limits: Limits, g: Registry, todo: set<ModelId>, m: ModelId, unloaded: bool)
    requires IsLeast(m, todo) && Releasable(g, m) && g.models[m].lifecycle == Unloading
    ensures var e := Release(g, limits, m, ShutdownOperation, ShutdownClass, unloaded);
            Leads(limits, g, todo, [LetModelGo(m, unloaded)], e.next, todo - {m}, Going)
  {
    hide Release, Leads;
    ReleaseRejectedExactly(g, limits, m, ShutdownOperation, ShutdownClass, unloaded);
    LeadsOne(limits, g, todo, LetModelGo(m, unloaded));
  }

  lemma LeaveLeads(limits: Limits, g: Registry, todo: set<ModelId>, m: ModelId)
    requires IsLeast(m, todo)
    requires m in g.models ==>
      !g.models[m].lifecycle.Accepting() && g.models[m].requests == map[] && g.models[m].pendingSequences != map[]
    ensures Leads(limits, g, todo, [NextModel(m)], g, todo - {m}, Going)
  {
    hide Leads;
    LeadsOne(limits, g, todo, NextModel(m));
  }

  lemma AskLeads(limits: Limits, g: Registry, todo: set<ModelId>, m: ModelId)
    requires IsLeast(m, todo) && m in g.models && g.models[m].lifecycle.Accepting() && g.models[m].lifecycle.WellFormed()
    ensures Leads(limits, g, todo, [AskToUnload(m)], Asked(g, m), todo, Going)
  {
    hide Leads;
    LeadsOne(limits, g, todo, AskToUnload(m));
  }

  lemma PollLeads(limits: Limits, g: Registry, cleanup: Cleanup, released: bool, unloaded: bool)
    requires NextCleanup(g, limits, cleanup) && (cleanup.RetryOf? ==> HasQuarantined(g, cleanup.model, cleanup.request))
    ensures var e := CleanupEffect(g, limits, cleanup, released, unloaded);
            Leads(limits, g, {}, [PollOnce(cleanup, released, unloaded)], e.next, {},
                  if e.result.Err? then Rejected else if cleanup == NothingToRetry then Finished else Going)
  {
    hide CleanupEffect, NextCleanup, Leads;
    LeadsOne(limits, g, {}, PollOnce(cleanup, released, unloaded));
  }

  // A run from the start ends in a lifecycle error only if some model was unsafe.
  lemma SafeLeads(limits: Limits, g: Registry, moves: seq<Move>, next: Registry, left: set<ModelId>, progress: Progress)
    requires Shaped(g, limits) && limits.maximumAttempts >= 1 && Safe(g, limits)
    requires Leads(limits, g, g.models.Keys, moves, next, left, progress)
    ensures progress != Rejected
  {
    hide Ran, Shaped, Safe;
    SafeNeverRejected(Start(g), limits, moves);
  }
}
