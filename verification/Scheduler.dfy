// The generation scheduler (generation.rs): admits generations, advances one task per
// opportunity, and publishes their tokens and states.
module Scheduler {
  import opened Common
  import opened Footprints
  import opened Lifecycle
  import opened RuntimeTypes
  import opened BackendProtocol
  import opened Backends
  import opened Registry
  import opened RegistrySteps
  import opened RegistryModelSteps
  import opened RegistryAdmission
  import opened RuntimeSpec
  import opened RequestFrames
  import opened Runtime
  import opened TokenOutput
  import opened Generation
  import opened SchedulerSpec
  import opened TaskSteps
  import opened Fairness
  import opened Pacing

  type Output = Accumulator<OutputState>

  // ----- The registry as the scheduler uses it -----

  lemma ActiveFacts(g: Registry, limits: Limits, w: World, r: RequestId)
    requires Consistent(g, limits, w)
    ensures IndexedRequests(g) && IndicesConsistent(g, limits)
    ensures r in g.requestIndex ==> SlotOf(g, r).lifecycle.ActiveCount() == |SlotOf(g, r).requests|
    ensures r in g.requestIndex ==> g.requestIndex[r] !in g.pendingModels
  {
    hide SlotTotal, LedgerConsistent, OwnershipConsistent, RequestsIndexed, PendingIndexed, SequencesIndexed, PendingSequencesIndexed,
         GenerationsConsistent, HasRequest;
    forall x | x in g.requestIndex
      ensures HasRequest(g, x)
    {
      HasRequestWhenIndexed(g, limits, x);
    }
    if r in g.requestIndex {
      SlotWellShaped(g, limits, r);
      DisjointModels(g, limits, g.requestIndex[r]);
    }
  }

  lemma SlotWellShaped(g: Registry, limits: Limits, r: RequestId)
    requires SlotsConsistent(g.models, limits) && HasRequest(g, r)
    ensures g.requestIndex[r] in g.models
    ensures SlotOf(g, r).lifecycle.ActiveCount() == |SlotOf(g, r).requests|
  {
    hide SlotTotal;
  }

  // complete_request, cancel_request and fail_request differ only in what a failed
  // destruction is blamed on.
  method RemoveActive(runtime: InferenceRuntime, r: RequestId, operation: RuntimeOperation, failure: FailureClass)
    returns (error: Option<RuntimeError>, ghost destroyed: bool, ghost unloaded: bool)
    requires runtime.Valid()
    modifies runtime`registry, runtime.backend`log, runtime.backend`world
    ensures runtime.Valid()
    ensures RemovalMeets(old(runtime.registry), runtime.limits, r, operation, failure, destroyed, unloaded, runtime.registry,
                         if error.Some? then Err(error.value) else Ok(()), old(runtime.backend.log), runtime.backend.log)
    ensures RemovalReported(old(runtime.registry), runtime.registry, r, if error.Some? then Err(error.value) else Ok(()))
    ensures OthersUndisturbed(old(runtime.registry), runtime.registry, r) && Undisturbed(old(runtime.registry), runtime.registry, r)
    ensures runtime.registry.workspaces == old(runtime.registry).workspaces
    ensures IndexedRequests(runtime.registry) && IndicesConsistent(runtime.registry, runtime.limits)
  {
    hide Consistent, Lawful, Replay, Remove, RemoveCalls, RemovalMeets, OthersUndisturbed, Undisturbed, IndexedRequests, IndicesConsistent;
    ghost var g := runtime.registry;
    ActiveFacts(g, runtime.limits, runtime.backend.world, r);
    var result;
    result, destroyed, unloaded := runtime.RemoveRequest(r, operation, failure);
    RemovedAsMeant(g, runtime.limits, r, operation, failure, destroyed, unloaded, runtime.registry, result, old(runtime.backend.log), runtime.backend.log);
    RemovalIsolates(g, runtime.limits, r, operation, failure, destroyed, unloaded);
    ActiveFacts(runtime.registry, runtime.limits, runtime.backend.world, r);
    error := if result.Err? then Some(result.error) else None;
  }

  lemma RemovedAsMeant(g: Registry, limits: Limits, r: RequestId, operation: RuntimeOperation, failure: FailureClass, destroyed: bool, unloaded: bool,
                       next: Registry, result: Outcome<()>, before: seq<Event>, after: seq<Event>)
    requires r in g.requestIndex ==> HasRequest(g, r)
    requires Effect(next, result) == Remove(g, limits, r, operation, failure, destroyed, unloaded)
    requires after == before + RemoveCalls(g, r, destroyed, unloaded)
    ensures RemovalMeets(g, limits, r, operation, failure, destroyed, unloaded, next, if result.Err? then Err(result.error) else Ok(()), before, after)
  {
    hide Remove, RemoveCalls, HasRequest;
    if result.Ok? {
      match result.value
      case () =>
    }
  }

  // What one backend execution of the scheduler did to the registry, and answered.
  ghost predicate Called(kernel: Kernel, g: Registry, r: RequestId, call: Call, logits: seq<real>,
                         next: Registry, result: Outcome<Answer>, after: seq<real>)
    requires r in g.requestIndex ==> HasRequest(g, r)
  {
    if r !in g.requestIndex then result == Err(RequestNotActive(r)) && after == logits && next == g
    else
      var checked := CheckedCall(kernel, SequenceOf(g, r), call, logits);
      after == checked.buffer && CallConcluded(g, r, checked, next, result)
  }

  function CheckedCall(kernel: Kernel, s: Sequence, call: Call, logits: seq<real>): Checked {
    match call
    case PrefillCall(tokens, emit) => PrefillChecked(kernel, s, tokens, emit, logits)
    case DecodeCall(token) => DecodeChecked(kernel, s, token, logits)
  }

  // One execution, for every answer of the backend: the exact registry, answer, buffer
  // and calls.
  ghost predicate ExecutionMeets(kernel: Kernel, g: Registry, limits: Limits, r: RequestId, call: Call, logits: seq<real>, destroyed: bool, unloaded: bool,
                                 next: Registry, result: Outcome<Answer>, after: seq<real>, before: seq<Event>, log: seq<Event>) {
    if r !in g.requestIndex then result == Err(RequestNotActive(r)) && after == logits && next == g && log == before
    else
      && HasRequest(g, r)
      && var request := RequestOf(g, r);
         match call
         case PrefillCall(tokens, emit) =>
           var checked := PrefillChecked(kernel, request.sequence, tokens, emit, logits);
           var usage := PromptUsage(request.usage, checked.answer);
           && after == checked.buffer
           && Effect(next, result) == Execute(g, limits, r, checked, usage, Prefill, destroyed, unloaded)
           && log == before + ExecuteCalls(g, r, checked, usage, destroyed, unloaded)
         case DecodeCall(token) =>
           var checked := DecodeChecked(kernel, request.sequence, token, logits);
           var usage := DecodeUsage(request.usage, checked.answer);
           && after == checked.buffer
           && Effect(next, result) == Execute(g, limits, r, checked, usage, Decode, destroyed, unloaded)
           && log == before + ExecuteCalls(g, r, checked, usage, destroyed, unloaded)
  }

  method CallBackend(runtime: InferenceRuntime, r: RequestId, call: Call, logits: seq<real>)
    returns (result: Outcome<Answer>, after: seq<real>, ghost destroyed: bool, ghost unloaded: bool)
    requires runtime.Valid() && IndexedRequests(runtime.registry)
    modifies runtime`registry, runtime.backend`log, runtime.backend`world
    ensures runtime.Valid()
    ensures ExecutionMeets(runtime.backend.kernel, old(runtime.registry), runtime.limits, r, call, logits, destroyed, unloaded,
                           runtime.registry, result, after, old(runtime.backend.log), runtime.backend.log)
    ensures Called(runtime.backend.kernel, old(runtime.registry), r, call, logits, runtime.registry, result, after)
    ensures OthersUndisturbed(old(runtime.registry), runtime.registry, r)
    ensures runtime.registry.workspaces == old(runtime.registry).workspaces
    ensures IndexedRequests(runtime.registry) && IndicesConsistent(runtime.registry, runtime.limits)
  {
    hide Consistent, Lawful, Replay, Execute, ExecuteCalls, OthersUndisturbed, Undisturbed, IndicesConsistent, CallConcluded, PrefillChecked, DecodeChecked, HasRequest;
    ghost var g := runtime.registry;
    ActiveFacts(g, runtime.limits, runtime.backend.world, r);
    match call {
      case PrefillCall(tokens, emit) =>
        result, after, destroyed, unloaded := runtime.PrefillRequest(r, tokens, emit, logits);
      case DecodeCall(token) =>
        result, after, destroyed, unloaded := runtime.DecodeRequest(r, token, logits);
    }
    if r in g.requestIndex {
      ghost var request := RequestOf(g, r);
      ghost var checked := CheckedCall(runtime.backend.kernel, SequenceOf(g, r), call, logits);
      ExecutionIsolates(g, runtime.limits, r, checked,
                        if call.PrefillCall? then PromptUsage(request.usage, checked.answer) else DecodeUsage(request.usage, checked.answer),
                        if call.PrefillCall? then Prefill else Decode, destroyed, unloaded);
    } else {
      QuietReflexive(g, 0);
      QuietUndisturbs(g, g, r);
    }
    ActiveFacts(runtime.registry, runtime.limits, runtime.backend.world, r);
  }

  // ----- Publishing -----

  // One try_push_state for request r; the lock's state is up to the consumer.
  method PublishState(output: Output, r: RequestId, payload: OutputState, ghost trace: Trace)
    returns (result: Result<(), PushError>)
    requires output.Valid() && Logged(output.accepted, r, trace)
    modifies output
    ensures output.Valid() && OnlyFrom(old(output.accepted), output.accepted, r)
    ensures result.Err? ==> output.accepted == old(output.accepted)
    ensures result.Ok? ==> output.accepted == old(output.accepted) + [StatePush(r, payload)]
    ensures result.Ok? ==> Logged(output.accepted, r, trace.(published := trace.published + [StatePush(r, payload)]))
    ensures output.refused == old(output.refused) + if result.Err? then 1 else 0
  {
    hide Logged;
    ghost var log := output.accepted;
    var lock: Lock := *;
    result := output.TryPushState(r, payload, lock);
    LoggedAfter(log, r, trace, StatePush(r, payload));
  }

  method PublishToken(output: Output, r: RequestId, token: Token, ghost trace: Trace)
    returns (result: Result<(), PushError>)
    requires output.Valid() && Logged(output.accepted, r, trace)
    modifies output
    ensures output.Valid() && OnlyFrom(old(output.accepted), output.accepted, r)
    ensures result.Err? ==> output.accepted == old(output.accepted)
    ensures result.Ok? ==> output.accepted == old(output.accepted) + [TokensPush(r, [token])]
    ensures result.Ok? ==> Logged(output.accepted, r, trace.(published := trace.published + [TokensPush(r, [token])]))
    ensures output.refused == old(output.refused) + if result.Err? then 1 else 0
  {
    hide Logged;
    ghost var log := output.accepted;
    var lock: Lock := *;
    result := output.TryPushTokens(r, [token], lock);
    LoggedAfter(log, r, trace, TokensPush(r, [token]));
  }

  // output_yield.
  function YieldFor(error: PushError): Capacity {
    match error
    case PushCapacity(capacity) => capacity
    case _ => Capacity(OutputRecords, 1, 0)
  }

  // publish_terminal.
  method PublishTerminal(runtime: InferenceRuntime, output: Output, r: RequestId, task: Task, ghost m: Machine, ghost trace: Trace)
    returns (next: Task, advance: Advance, ghost trace': Trace, ghost rejected: bool)
    requires runtime.Valid() && output.Valid()
    requires task.phase.TerminalPhase? && TaskOk(m, r, Moment(runtime.registry, output.accepted, task, trace))
    modifies output
    ensures output.Valid()
    ensures Stepped(m, r, Moment(runtime.registry, old(output.accepted), task, trace),
                    Moment(runtime.registry, output.accepted, next, trace'), advance, rejected)
    ensures Offered(runtime.limits, r, Moment(runtime.registry, old(output.accepted), task, trace),
                    Moment(runtime.registry, output.accepted, next, trace'), rejected)
    ensures output.refused == old(output.refused) + if rejected then 1 else 0
  {
    hide Consistent, Lawful, Replay, Logged, TaskFaithful, StageOf, HasRequest, Stepped, CleanupState, Registered, TaskOk, MovesStage, Remaining;
    FlagsInOrder(m, r, Moment(runtime.registry, output.accepted, task, trace));
    RecordStages(r, task);
    CleanupKnown(runtime.registry, runtime.limits, runtime.backend.world, r);
    trace' := trace;
    rejected := true;
    var terminal := task.phase.terminal;
    if !terminal.terminalPublished {
      next, advance, trace', rejected := PublishRecord(output, r, task, Terminal(terminal.outcome),
                                                       terminal.(terminalPublished := true), m, trace, runtime.registry);
      return;
    }
    if terminal.initialCleanup.Some? {
      var state := CleanupState(runtime.registry, runtime.limits, r);
      if !terminal.cleanupPublished {
        var retry := if state.Some? then state.value else terminal.initialCleanup.value;
        next, advance, trace', rejected := PublishRecord(output, r, task, CleanupPending(terminal.outcome, retry.failure, retry),
                                                         terminal.(cleanupPublished := true), m, trace, runtime.registry);
        return;
      }
      if state.Some? {
        if state.value.Exhausted() && !terminal.exhaustionPublished {
          next, advance, trace', rejected := PublishRecord(output, r, task, CleanupExhausted(terminal.outcome, state.value.failure, state.value),
                                                           terminal.(exhaustionPublished := true), m, trace, runtime.registry);
          return;
        }
        WaitsForCleanup(m, r, Moment(runtime.registry, output.accepted, task, trace));
        return task, Advance(false, None), trace, false;
      }
    }
    next, advance, trace', rejected := PublishFinal(output, r, task, m, trace, runtime.registry);
  }

  // The final record, once the registry holds nothing of the request.
  method PublishFinal(output: Output, r: RequestId, task: Task, ghost m: Machine, ghost trace: Trace, ghost g: Registry)
    returns (next: Task, advance: Advance, ghost trace': Trace, ghost rejected: bool)
    requires output.Valid()
    requires task.phase.TerminalPhase? && TaskOk(m, r, Moment(g, output.accepted, task, trace))
    requires task.phase.terminal.terminalPublished
    requires task.phase.terminal.initialCleanup.None? || r !in g.pendingRequestIndex
    modifies output
    ensures output.Valid()
    ensures Stepped(m, r, Moment(g, old(output.accepted), task, trace), Moment(g, output.accepted, next, trace'), advance, rejected)
    ensures next == task
    ensures output.accepted
            == if rejected then old(output.accepted) else old(output.accepted) + [StatePush(r, Finalized(task.phase.terminal.outcome))]
    ensures output.refused == old(output.refused) + if rejected then 1 else 0
  {
    hide OthersUndisturbed, OnlyFrom, Logged, TaskFaithful, StageOf, HasRequest;
    ghost var start := Moment(g, output.accepted, task, trace);
    IsolatedReflexive(r, start);
    var outcome := task.phase.terminal.outcome;
    var pushed := PublishState(output, r, Finalized(outcome), trace);
    if pushed.Err? {
      return task, Advance(false, None), trace, true;
    }
    FinalRecord(m, r, task, trace);
    trace' := trace.(published := trace.published + [StatePush(r, Finalized(outcome))]);
    return task, Advance(true, Some(r)), trace', false;
  }

  lemma WaitsForCleanup(m: Machine, r: RequestId, s: Moment)
    requires TaskOk(m, r, s) && s.task.phase.TerminalPhase? && r in s.g.pendingRequestIndex
    ensures Stepped(m, r, s, s, Advance(false, None), false)
  {
    hide OthersUndisturbed, OnlyFrom, Logged, TaskFaithful, StageOf, HasRequest;
    IsolatedReflexive(r, s);
  }

  lemma CleanupKnown(g: Registry, limits: Limits, w: World, r: RequestId)
    requires Consistent(g, limits, w)
    ensures CleanupState(g, limits, r).Some? <==> r in g.pendingRequestIndex
  {
    hide ModelsConsistent, LedgerConsistent, OwnershipConsistent, IndicesConsistent, CleanupState;
    CleanupStateIsExact(g, limits, r);
  }

  lemma FlagsInOrder(m: Machine, r: RequestId, s: Moment)
    requires TaskOk(m, r, s) && s.task.phase.TerminalPhase?
    ensures s.task.phase.terminal.exhaustionPublished ==> s.task.phase.terminal.cleanupPublished
    ensures s.task.phase.terminal.cleanupPublished ==> s.task.phase.terminal.terminalPublished && s.task.phase.terminal.initialCleanup.Some?
  {
    hide Streamed, Follows, Registered, Logged;
  }

  // Each terminal record moves the stream to its own next stage, once.
  ghost predicate MovesStage(r: RequestId, task: Task, record: OutputState, terminal: TerminalPublication)
    requires task.phase.TerminalPhase?
  {
    && NextStage(PhaseStage(task.phase), StatePush(r, record)) == PhaseStage(TerminalPhase(terminal))
    && Remaining(task.(phase := TerminalPhase(terminal))) < Remaining(task)
  }

  lemma RecordStages(r: RequestId, task: Task)
    requires task.phase.TerminalPhase?
    ensures var t := task.phase.terminal;
            && (!t.terminalPublished && !t.cleanupPublished && !t.exhaustionPublished ==>
                  MovesStage(r, task, Terminal(t.outcome), t.(terminalPublished := true)))
            && (t.terminalPublished && !t.cleanupPublished && !t.exhaustionPublished ==>
                  forall retry: RetryState :: MovesStage(r, task, CleanupPending(t.outcome, retry.failure, retry), t.(cleanupPublished := true)))
            && (t.terminalPublished && t.cleanupPublished && !t.exhaustionPublished ==>
                  forall retry: RetryState :: MovesStage(r, task, CleanupExhausted(t.outcome, retry.failure, retry), t.(exhaustionPublished := true)))
  {
  }

  // The final record closes the publication, whatever was published before it.
  lemma FinalRecord(m: Machine, r: RequestId, task: Task, trace: Trace)
    requires TaskFaithful(m, task, trace) && task.phase.TerminalPhase? && task.phase.terminal.terminalPublished
    ensures StageOf(trace.published + [StatePush(r, Finalized(task.phase.terminal.outcome))]) == Closed(task.phase.terminal.outcome)
  {
    StageAfter(trace.published, StatePush(r, Finalized(task.phase.terminal.outcome)));
    hide StageOf, Follows, AllTokens;
  }

  // One of the terminal records and its flag.
  method PublishRecord(output: Output, r: RequestId, task: Task, payload: OutputState, terminal: TerminalPublication,
                       ghost m: Machine, ghost trace: Trace, ghost g: Registry)
    returns (next: Task, advance: Advance, ghost trace': Trace, ghost rejected: bool)
    requires output.Valid()
    requires task.phase.TerminalPhase? && TaskOk(m, r, Moment(g, output.accepted, task, trace))
    requires terminal.outcome == task.phase.terminal.outcome && terminal.initialCleanup == task.phase.terminal.initialCleanup
    requires terminal.exhaustionPublished ==> terminal.cleanupPublished
    requires terminal.cleanupPublished ==> terminal.terminalPublished && terminal.initialCleanup.Some?
    requires MovesStage(r, task, payload, terminal)
    modifies output
    ensures output.Valid()
    ensures Stepped(m, r, Moment(g, old(output.accepted), task, trace), Moment(g, output.accepted, next, trace'), advance, rejected)
    ensures rejected ==> next == task && output.accepted == old(output.accepted)
    ensures !rejected ==> next == task.(phase := TerminalPhase(terminal)) && output.accepted == old(output.accepted) + [StatePush(r, payload)]
    ensures output.refused == old(output.refused) + if rejected then 1 else 0
  {
    hide OthersUndisturbed, OnlyFrom, Logged, TaskFaithful, NextStage, PhaseStage, HasRequest;
    ghost var start := Moment(g, output.accepted, task, trace);
    IsolatedReflexive(r, start);
    var pushed := PublishState(output, r, payload, trace);
    if pushed.Err? {
      return task, Advance(false, None), trace, true;
    }
    StatePublished(m, r, task, trace, payload, terminal);
    trace' := trace.(published := trace.published + [StatePush(r, payload)]);
    return task.(phase := TerminalPhase(terminal)), Advance(true, None), trace', false;
  }

  // ----- Ending a request -----

  // Removes the request and enters the terminal phase for `outcome`.
  method EndRequest(runtime: InferenceRuntime, r: RequestId, outcome: GenerationOutcome, operation: RuntimeOperation, failure: FailureClass)
    returns (phase: Phase)
    requires runtime.Valid()
    modifies runtime`registry, runtime.backend`log, runtime.backend`world
    ensures runtime.Valid() && IndexedRequests(runtime.registry)
    ensures r !in runtime.registry.requestIndex && Entered(old(runtime.registry), runtime.registry, r, phase, outcome)
    ensures OthersUndisturbed(old(runtime.registry), runtime.registry, r)
    ensures runtime.registry.workspaces == old(runtime.registry).workspaces
  {
    hide Consistent, Lawful, Replay, OthersUndisturbed, Undisturbed, IndexedRequests, IndicesConsistent, Entered, TerminalFor;
    ghost var g := runtime.registry;
    var error;
    ghost var destroyed, unloaded;
    error, destroyed, unloaded := RemoveActive(runtime, r, operation, failure);
    TerminalForEnters(g, runtime.registry, runtime.limits, r, outcome, error);
    phase := TerminalFor(runtime.registry, runtime.limits, r, outcome, error);
  }

  // A cancellation taken at a scheduling opportunity.
  method CancelTask(runtime: InferenceRuntime, r: RequestId, task: Task, reason: CancellationReason,
                    ghost m: Machine, ghost trace: Trace, ghost log: Log)
    returns (next: Task)
    requires runtime.Valid() && !task.phase.TerminalPhase? && task.cancellation == Some(reason)
    requires TaskOk(m, r, Moment(runtime.registry, log, task, trace))
    modifies runtime`registry, runtime.backend`log, runtime.backend`world
    ensures runtime.Valid() && IndexedRequests(runtime.registry)
    ensures Stepped(m, r, Moment(old(runtime.registry), log, task, trace), Moment(runtime.registry, log, next, trace), Advance(true, None), false)
  {
    hide Consistent, Lawful, Replay, OthersUndisturbed, Undisturbed, IndexedRequests, IndicesConsistent, Entered, TerminalFor,
         TaskFaithful, Registered, Logged, Remaining;
    ghost var start := Moment(runtime.registry, log, task, trace);
    IsolatedReflexive(r, start);
    ActiveFacts(runtime.registry, runtime.limits, runtime.backend.world, r);
    var outcome := Graceful(Cancelled(reason));
    var phase;
    if r in runtime.registry.requestIndex {
      phase := EndRequest(runtime, r, outcome, Cancellation, CancellationClass);
    } else {
      var state := CleanupState(runtime.registry, runtime.limits, r);
      var error := if state.Some? then Some(CleanupFailed(state.value.failure)) else None;
      TerminalForEnters(start.g, runtime.registry, runtime.limits, r, outcome, error);
      phase := TerminalFor(runtime.registry, runtime.limits, r, outcome, error);
    }
    next := task.(phase := phase, cancellation := None);
    IsTerminal(start.g, runtime.registry, r, phase, outcome);
    EndsExplained(m, r, start, runtime.registry, phase, outcome);
    TaskEnds(m, r, start.g, runtime.registry, task, trace, next, outcome, trace.current);
  }

  // Publishing a sampled token, and what it means for the generation.
  method PublishPending(runtime: InferenceRuntime, output: Output, r: RequestId, task: Task, ghost m: Machine, ghost trace: Trace)
    returns (next: Task, advance: Advance, ghost trace': Trace, ghost rejected: bool)
    requires runtime.Valid() && output.Valid()
    requires !task.phase.TerminalPhase? && task.pendingToken.Some? && task.cancellation.None?
    requires TaskOk(m, r, Moment(runtime.registry, output.accepted, task, trace))
    modifies runtime`registry, runtime.backend`log, runtime.backend`world, output
    ensures runtime.Valid() && output.Valid() && IndexedRequests(runtime.registry)
    ensures Stepped(m, r, Moment(old(runtime.registry), old(output.accepted), task, trace),
                    Moment(runtime.registry, output.accepted, next, trace'), advance, rejected)
    ensures TokenOffered(r, task, old(output.accepted), next, output.accepted, rejected)
    ensures output.refused == old(output.refused) + if rejected then 1 else 0
    ensures advance.completed.None?
  {
    hide Consistent, Lawful, Replay, OthersUndisturbed, Undisturbed, IndexedRequests, IndicesConsistent, Entered, OnlyFrom,
         TaskFaithful, Registered, Logged, FinishAfter, HasRequest, YieldFor;
    ghost var start := Moment(runtime.registry, output.accepted, task, trace);
    IsolatedReflexive(r, start);
    ActiveFacts(runtime.registry, runtime.limits, runtime.backend.world, r);
    var token := task.pendingToken.value;
    var pushed := PublishToken(output, r, token, trace);
    if pushed.Err? {
      next := task.(pendingYield := Some(YieldFor(pushed.error)));
      YieldChangesNothing(m, r, start, next.pendingYield);
      return next, Advance(false, None), trace, true;
    }
    TokenPublished(m, r, task, trace);
    trace' := trace.(published := trace.published + [TokensPush(r, [token])]);
    var published := task.(pendingToken := None);
    var finish := FinishAfter(task.job, task.generated);
    if finish.None? {
      next := published.(phase := DecodePhase);
      StillRegistered(runtime.registry, r, task, trace, next, trace');
      return next, Advance(true, None), trace', false;
    }
    var phase := EndRequest(runtime, r, Graceful(finish.value), FinishOperation(finish.value), FinishFailureClass(finish.value));
    next := published.(phase := phase);
    EndsExplained(m, r, start, runtime.registry, phase, Graceful(finish.value));
    LastTokenEnds(m, r, start.g, runtime.registry, task, trace, next, Graceful(finish.value));
    return next, Advance(true, None), trace', false;
  }

  // Only the yield reason differs.
  lemma YieldChangesNothing(m: Machine, r: RequestId, s: Moment, pendingYield: Option<Capacity>)
    requires TaskOk(m, r, s) && !s.task.phase.TerminalPhase?
    ensures TaskOk(m, r, s.(task := s.task.(pendingYield := pendingYield)))
    ensures Remaining(s.task.(pendingYield := pendingYield)) == Remaining(s.task)
  {
    hide Reference, FinishAfter, Logged, StageOf, AllTokens, HasRequest;
    assert RunOf(s.task.(pendingYield := pendingYield), s.trace) == RunOf(s.task, s.trace);
    hide Rest;
  }

  lemma StillRegistered(g: Registry, r: RequestId, task: Task, trace: Trace, next: Task, trace': Trace)
    requires Registered(g, r, task, trace) && !next.phase.TerminalPhase?
    requires trace'.current == trace.current && trace'.touched == trace.touched
    ensures Registered(g, r, next, trace')
  {
    hide HasRequest;
  }

  // The published token was the last one.
  lemma LastTokenEnds(m: Machine, r: RequestId, before: Registry, g: Registry, task: Task, trace: Trace, next: Task, outcome: GenerationOutcome)
    requires TaskFaithful(m, task, trace) && !task.phase.TerminalPhase? && task.pendingToken.Some?
    requires Entered(before, g, r, next.phase, outcome) && r !in g.requestIndex
    requires next == task.(pendingToken := None, phase := next.phase)
    requires !trace.touched ==> Reference(m, task.job, trace.origin) == Generated(task.generated, outcome)
    ensures var trace' := trace.(published := trace.published + [TokensPush(r, [task.pendingToken.value])]);
            TaskFaithful(m, next, trace') && Registered(g, r, next, trace') && Remaining(next) < Remaining(task)
  {
    hide Reference, Rest, FinishAfter, Interrupted, Entered, HasRequest, StageOf, AllTokens, AdmittedOn, SequenceOf;
    EnteredMeans(before, g, r, next.phase, outcome);
    TokenPublished(m, r, task, trace);
  }

  // ----- One backend step -----

  function NextCall(task: Task): Call
    requires !task.phase.PrefillPhase? ==> task.generated != []
  {
    if task.phase.PrefillPhase? then PrefillCall(task.job.prompt, true)
    else DecodeCall(task.generated[|task.generated| - 1])
  }

  ghost function HeldSequence(g: Registry, r: RequestId, trace: Trace): Sequence
    requires r in g.requestIndex ==> HasRequest(g, r)
  {
    if r in g.requestIndex then SequenceOf(g, r) else trace.current
  }

  // What an answer means for the simple loop.
  ghost predicate AnswerMeans(m: Machine, job: Job, run: Run, r: RequestId, g: Registry, next: Registry, result: Outcome<Answer>, after: seq<real>) {
    match result
    case Err(error) =>
      r !in next.requestIndex && (Blamed(g, next, r, Failure(error)) || LoopStep(m, job, run) == Stopped(Failure(error)))
    case Ok(Ended(reason)) => r !in next.requestIndex && LoopStep(m, job, run) == Stopped(Graceful(reason))
    case Ok(Ready(_, _, written)) =>
      var checked := BackendCall(m, job, run);
      && HasRequest(next, r) && SequenceOf(next, r) == checked.sequence
      && next.requestIndex == g.requestIndex && next.pendingModels == g.pendingModels
      && after == checked.buffer
      && LoopStep(m, job, run) == Sample(m, job, run, checked, written)
  }

  lemma CallMeans(m: Machine, g: Registry, r: RequestId, task: Task, trace: Trace, next: Registry, result: Outcome<Answer>, after: seq<real>)
    requires r in g.requestIndex ==> HasRequest(g, r)
    requires !task.phase.PrefillPhase? ==> task.generated != []
    requires !task.phase.TerminalPhase? && (task.generated == [] <==> task.phase.PrefillPhase?)
    requires Called(m.kernel, g, r, NextCall(task), task.logits, next, result, after)
    ensures AnswerMeans(m, task.job, RunWith(task, HeldSequence(g, r, trace)), r, g, next, result, after)
  {
    hide PrefillChecked, DecodeChecked, HasRequest, SequenceOf;
  }

  // A step's end of the task, after the registry let the request go.
  lemma StepEnds(m: Machine, r: RequestId, s: Moment, g: Registry, next: Task, outcome: GenerationOutcome, sequence: Sequence)
    requires TaskOk(m, r, s) && !s.task.phase.TerminalPhase? && s.task.pendingToken.None?
    requires !s.trace.touched ==> sequence == s.trace.current
    requires s.task.cancellation.None?
    requires Blamed(s.g, g, r, outcome) || LoopStep(m, s.task.job, RunWith(s.task, sequence)) == Stopped(outcome)
    requires next == s.task.(phase := next.phase, logits := next.logits, sampler := next.sampler)
    requires Entered(s.g, g, r, next.phase, outcome) && r !in g.requestIndex
    requires OthersUndisturbed(s.g, g, r) && g.workspaces == s.g.workspaces
    ensures Stepped(m, r, s, Moment(g, s.log, next, s.trace), Advance(true, None), false)
  {
    hide LoopStep, Interrupted, Blamed, Entered, TaskFaithful, Logged, Registered, OthersUndisturbed, Reference, AllTokens, Remaining;
    IsolatedReflexive(r, s);
    BlamedInterrupts(s.g, g, r, outcome);
    if !Blamed(s.g, g, r, outcome) {
      RunStops(m, s.task, s.trace, sequence, outcome);
    }
    IsTerminal(s.g, g, r, next.phase, outcome);
    EndsExplained(m, r, s, g, next.phase, outcome);
    TaskEnds(m, r, s.g, g, s.task, s.trace, next, outcome, s.trace.current);
  }

  // A step that sampled a token.
  lemma StepSamples(m: Machine, r: RequestId, s: Moment, g: Registry, next: Run, sequence: Sequence)
    requires TaskOk(m, r, s) && !s.task.phase.TerminalPhase? && s.task.pendingToken.None?
    requires !s.trace.touched ==> sequence == s.trace.current
    requires LoopStep(m, s.task.job, RunWith(s.task, sequence)) == Continued(next)
    requires s.task.cancellation.None?
    requires HasRequest(g, r) && SequenceOf(g, r) == next.sequence
    requires OthersUndisturbed(s.g, g, r) && g.workspaces == s.g.workspaces
    ensures next.generated != []
    ensures Stepped(m, r, s, Moment(g, s.log, SampledTask(s.task, next), s.trace.(current := next.sequence)), Advance(true, None), false)
  {
    hide LoopStep, TaskFaithful, ForRequest, OthersUndisturbed, HasRequest, SequenceOf, Remaining;
    IsolatedReflexive(r, s);
    RunContinues(m, s.task, s.trace, sequence, next);
  }

  method BackendStep(runtime: InferenceRuntime, sampling: Sampling, r: RequestId, task: Task, ghost m: Machine, ghost trace: Trace, ghost log: Log)
    returns (next: Task, ghost trace': Trace)
    requires runtime.Valid() && m == Machine(runtime.backend.kernel, sampling)
    requires !task.phase.TerminalPhase? && task.pendingToken.None? && task.cancellation.None?
    requires TaskOk(m, r, Moment(runtime.registry, log, task, trace))
    modifies runtime`registry, runtime.backend`log, runtime.backend`world
    ensures runtime.Valid() && IndexedRequests(runtime.registry)
    ensures Stepped(m, r, Moment(old(runtime.registry), log, task, trace), Moment(runtime.registry, log, next, trace'), Advance(true, None), false)
    ensures next.pendingToken.Some? || next.phase.TerminalPhase?
    ensures |next.generated| <= |task.generated| + 1 && next.pendingYield == task.pendingYield
  {
    hide Consistent, Lawful, Replay, OthersUndisturbed, Undisturbed, IndexedRequests, IndicesConsistent, Entered,
         TaskFaithful, Registered, Logged, FinishAfter, LoopStep, Stepped, HasRequest, SequenceOf, Called, Interrupted, Sample, TerminalFor, BackendCall;
    ghost var s := Moment(runtime.registry, log, task, trace);
    ActiveFacts(runtime.registry, runtime.limits, runtime.backend.world, r);
    StepReady(m, r, s);
    ghost var held := HeldSequence(s.g, r, trace);
    trace' := trace;
    var result, after;
    ghost var destroyed, unloaded;
    result, after, destroyed, unloaded := CallBackend(runtime, r, NextCall(task), task.logits);
    CallMeans(m, s.g, r, task, trace, runtime.registry, result, after);
    match result {
      case Err(error) =>
        TerminalFromErrorEnters(s.g, runtime.registry, runtime.limits, r, error);
        next := task.(phase := TerminalFromError(runtime.registry, runtime.limits, r, error), logits := after);
        StepEnds(m, r, s, runtime.registry, next, Failure(error), held);
        IsTerminal(s.g, runtime.registry, r, next.phase, Failure(error));
      case Ok(Ended(reason)) =>
        TerminalForEnters(s.g, runtime.registry, runtime.limits, r, Graceful(reason), None);
        next := task.(phase := TerminalFor(runtime.registry, runtime.limits, r, Graceful(reason), None), logits := after);
        StepEnds(m, r, s, runtime.registry, next, Graceful(reason), held);
        IsTerminal(s.g, runtime.registry, r, next.phase, Graceful(reason));
      case Ok(Ready(_, _, written)) =>
        next, trace' := SampleNext(runtime, sampling, r, task, after, written, m, s, held);
    }
  }

  lemma StepReady(m: Machine, r: RequestId, s: Moment)
    requires TaskOk(m, r, s) && !s.task.phase.TerminalPhase? && s.task.pendingToken.None?
    ensures s.task.generated == [] <==> s.task.phase.PrefillPhase?
    ensures s.task.phase.DecodePhase? ==> s.task.generated != []
    ensures s.task.history == s.task.job.prompt + s.task.generated
    ensures r in s.g.requestIndex ==> HasRequest(s.g, r)
    ensures !s.trace.touched ==> HeldSequence(s.g, r, s.trace) == s.trace.current
  {
    hide Streamed, Follows, FinishAfter, Logged, HasRequest, SequenceOf;
    RoomForToken(s.task);
  }

  // Sampling from the logits of a step that may go on.
  method SampleNext(runtime: InferenceRuntime, sampling: Sampling, r: RequestId, task: Task, after: seq<real>, written: nat,
                    ghost m: Machine, ghost s: Moment, ghost held: Sequence)
    returns (next: Task, ghost trace': Trace)
    requires runtime.Valid() && m == Machine(runtime.backend.kernel, sampling)
    requires TaskOk(m, r, s) && s.task == task && !task.phase.TerminalPhase? && task.pendingToken.None? && task.cancellation.None?
    requires runtime.registry.requestIndex == s.g.requestIndex && runtime.registry.pendingModels == s.g.pendingModels
    requires task.history == task.job.prompt + task.generated
    requires !s.trace.touched ==> held == s.trace.current
    requires OthersUndisturbed(s.g, runtime.registry, r) && runtime.registry.workspaces == s.g.workspaces
    requires HasRequest(runtime.registry, r) && SequenceOf(runtime.registry, r) == BackendCall(m, task.job, RunWith(task, held)).sequence
    requires after == BackendCall(m, task.job, RunWith(task, held)).buffer
    requires LoopStep(m, task.job, RunWith(task, held)) == Sample(m, task.job, RunWith(task, held), BackendCall(m, task.job, RunWith(task, held)), written)
    modifies runtime`registry, runtime.backend`log, runtime.backend`world
    ensures runtime.Valid() && IndexedRequests(runtime.registry)
    ensures Stepped(m, r, s, Moment(runtime.registry, s.log, next, trace'), Advance(true, None), false)
    ensures next.pendingToken.Some? || next.phase.TerminalPhase?
    ensures |next.generated| <= |task.generated| + 1 && next.pendingYield == task.pendingYield
  {
    hide Consistent, Lawful, Replay, OthersUndisturbed, Undisturbed, IndexedRequests, IndicesConsistent, Entered, BackendCall,
         TaskFaithful, Registered, Logged, FinishAfter, LoopStep, Stepped, HasRequest, SequenceOf, Interrupted, TerminalFor, TaskOk;
    ghost var g := runtime.registry;
    ghost var run := RunWith(task, held);
    trace' := s.trace;
    if written > |after| {
      var phase := EndRequest(runtime, r, Failure(BackendContractViolation), RuntimeOperation.Decode, ContractFailure);
      OthersUndisturbedTransitive(s.g, g, runtime.registry, r);
      next := task.(phase := phase, logits := after);
      EnteredSince(s.g, g, runtime.registry, r, phase, Failure(BackendContractViolation));
      StepEnds(m, r, s, runtime.registry, next, Failure(BackendContractViolation), held);
      IsTerminal(g, runtime.registry, r, phase, Failure(BackendContractViolation));
      return;
    }
    var sampled := sampling.sample(task.sampler, after[..written], task.history);
    var logits := Rewritten(after, sampled.logits, written);
    match sampled.token {
      case Err(code) =>
        var phase := EndRequest(runtime, r, Failure(SamplingFailed(code)), RuntimeOperation.Sampling, SamplingFailure);
        OthersUndisturbedTransitive(s.g, g, runtime.registry, r);
        next := task.(phase := phase, logits := logits, sampler := sampled.sampler);
        EnteredSince(s.g, g, runtime.registry, r, phase, Failure(SamplingFailed(code)));
        StepEnds(m, r, s, runtime.registry, next, Failure(SamplingFailed(code)), held);
        IsTerminal(g, runtime.registry, r, phase, Failure(SamplingFailed(code)));
      case Ok(token) =>
        next := task.(generated := task.generated + [token], history := task.history + [token], pendingToken := Some(token),
                      logits := logits, sampler := sampled.sampler);
        ghost var run' := Run(BackendCall(m, task.job, run).sequence, logits, sampled.sampler, task.generated + [token]);
        assert LoopStep(m, task.job, run) == Continued(run');
        ActiveFacts(g, runtime.limits, runtime.backend.world, r);
        StepSamples(m, r, s, g, run', held);
        assert next == SampledTask(task, run');
        trace' := s.trace.(current := run'.sequence);
    }
  }

  lemma IsTerminal(before: Registry, g: Registry, r: RequestId, phase: Phase, outcome: GenerationOutcome)
    requires Entered(before, g, r, phase, outcome)
    ensures phase.TerminalPhase?
  {
  }

  // ----- One scheduling opportunity -----

  // The quantum's loop. Sampling sets the pending token and so ends it: whatever the
  // quantum, one opportunity makes at most one backend step.
  method RunQuantum(runtime: InferenceRuntime, sampling: Sampling, r: RequestId, task: Task, ghost m: Machine, ghost trace: Trace, ghost log: Log)
    returns (next: Task, ghost trace': Trace)
    requires runtime.Valid() && m == Machine(runtime.backend.kernel, sampling)
    requires !task.phase.TerminalPhase? && task.pendingToken.None? && task.cancellation.None? && 0 < task.quantum
    requires TaskOk(m, r, Moment(runtime.registry, log, task, trace))
    modifies runtime`registry, runtime.backend`log, runtime.backend`world
    ensures runtime.Valid() && IndexedRequests(runtime.registry)
    ensures Stepped(m, r, Moment(old(runtime.registry), log, task, trace), Moment(runtime.registry, log, next, trace'), Advance(true, None), false)
    ensures |next.generated| <= |task.generated| + 1 && next.pendingYield == task.pendingYield
  {
    hide Consistent, Lawful, Replay, OthersUndisturbed, IndexedRequests, TaskFaithful, Registered, Logged, Stepped, TaskOk;
    next, trace' := task, trace;
    var steps := 0;
    while steps < task.quantum && next.pendingToken.None?
      invariant runtime.Valid()
      invariant steps == 0 ==> next == task && trace' == trace && runtime.registry == old(runtime.registry)
      invariant steps > 0 ==> next.pendingToken.Some? && IndexedRequests(runtime.registry)
      invariant next.pendingYield == task.pendingYield
      invariant |next.generated| <= |task.generated| + if steps == 0 then 0 else 1
      invariant steps > 0 ==>
        Stepped(m, r, Moment(old(runtime.registry), log, task, trace), Moment(runtime.registry, log, next, trace'), Advance(true, None), false)
      decreases task.quantum - steps
    {
      next, trace' := BackendStep(runtime, sampling, r, next, m, trace', log);
      if next.phase.TerminalPhase? {
        return;
      }
      steps := steps + 1;
    }
  }

  // A step after the pending yield went out counts from before it.
  lemma AfterYield(m: Machine, r: RequestId, s: Moment, mid: Moment, s': Moment, advance: Advance, rejected: bool)
    requires Isolated(r, s, mid) && mid.g == s.g && !s.task.phase.TerminalPhase? && !mid.task.phase.TerminalPhase?
    requires Remaining(mid.task) == Remaining(s.task)
    requires s.task.cancellation.None? && mid.task.cancellation.None?
    requires Stepped(m, r, mid, s', advance, rejected)
    ensures Stepped(m, r, s, s', advance, rejected)
  {
    IsolatedTransitive(r, s, mid, s');
    hide OthersUndisturbed, OnlyFrom, TaskOk, Remaining, Blamed, Reference;
  }

  // advance_task.
  method AdvanceTask(runtime: InferenceRuntime, output: Output, sampling: Sampling, r: RequestId, task: Task, ghost m: Machine, ghost trace: Trace)
    returns (next: Task, advance: Advance, ghost trace': Trace, ghost rejected: bool)
    requires runtime.Valid() && output.Valid() && m == Machine(runtime.backend.kernel, sampling)
    requires TaskOk(m, r, Moment(runtime.registry, output.accepted, task, trace))
    modifies runtime`registry, runtime.backend`log, runtime.backend`world, output
    ensures runtime.Valid() && output.Valid() && IndexedRequests(runtime.registry)
    ensures Stepped(m, r, Moment(old(runtime.registry), old(output.accepted), task, trace),
                    Moment(runtime.registry, output.accepted, next, trace'), advance, rejected)
    ensures Offered(runtime.limits, r, Moment(old(runtime.registry), old(output.accepted), task, trace),
                    Moment(runtime.registry, output.accepted, next, trace'), rejected)
    ensures output.refused == old(output.refused) + if rejected then 1 else 0
  {
    hide Consistent, Lawful, Replay, OthersUndisturbed, IndexedRequests, IndicesConsistent, TaskFaithful, Registered, Logged, Stepped, Remaining, HasRequest, OnlyFrom, TerminalRecord;
    ghost var s := Moment(runtime.registry, output.accepted, task, trace);
    ActiveFacts(runtime.registry, runtime.limits, runtime.backend.world, r);
    if task.phase.TerminalPhase? {
      next, advance, trace', rejected := PublishTerminal(runtime, output, r, task, m, trace);
      return;
    }
    if task.cancellation.Some? {
      next := CancelTask(runtime, r, task, task.cancellation.value, m, trace, output.accepted);
      return next, Advance(true, None), trace, false;
    }
    next, trace' := task, trace;
    if task.pendingYield.Some? {
      var pushed := PublishState(output, r, Yielded(task.pendingYield.value), trace);
      if pushed.Err? {
        Refused(m, r, s);
        return task, Advance(false, None), trace, true;
      }
      next := task.(pendingYield := None);
      trace' := trace.(published := trace.published + [StatePush(r, Yielded(task.pendingYield.value))]);
      Resumed(m, r, s, output.accepted);
    } else {
      IsolatedReflexive(r, s);
    }
    ghost var mid := Moment(runtime.registry, output.accepted, next, trace');
    if next.pendingToken.Some? {
      next, advance, trace', rejected := PublishPending(runtime, output, r, next, m, trace');
    } else {
      HasQuantum(m, next, trace');
      next, trace' := RunQuantum(runtime, sampling, r, next, m, trace', output.accepted);
      advance, rejected := Advance(true, None), false;
    }
    AfterYield(m, r, s, mid, Moment(runtime.registry, output.accepted, next, trace'), advance, rejected);
  }

  lemma HasQuantum(m: Machine, task: Task, trace: Trace)
    requires TaskFaithful(m, task, trace)
    ensures 0 < task.quantum
  {
    hide Streamed, Follows;
  }

  lemma Refused(m: Machine, r: RequestId, s: Moment)
    requires TaskOk(m, r, s) && !s.task.phase.TerminalPhase? && s.task.cancellation.None?
    ensures Stepped(m, r, s, s, Advance(false, None), true)
  {
    hide TaskOk, Isolated;
    IsolatedReflexive(r, s);
  }

  // The pending yield went out.
  lemma Resumed(m: Machine, r: RequestId, s: Moment, log: Log)
    requires TaskOk(m, r, s) && !s.task.phase.TerminalPhase? && s.task.pendingYield.Some?
    requires OnlyFrom(s.log, log, r)
    requires Logged(log, r, s.trace.(published := s.trace.published + [StatePush(r, Yielded(s.task.pendingYield.value))]))
    ensures var mid := Moment(s.g, log, s.task.(pendingYield := None),
                              s.trace.(published := s.trace.published + [StatePush(r, Yielded(s.task.pendingYield.value))]));
            Isolated(r, s, mid) && TaskOk(m, r, mid) && Remaining(mid.task) == Remaining(s.task)
  {
    hide TaskFaithful, Logged, OnlyFrom, OthersUndisturbed, HasRequest, SequenceOf;
    IsolatedReflexive(r, s);
    YieldPublished(m, r, s.task, s.trace, s.task.pendingYield.value);
  }

  // ----- Admission arithmetic -----

  // Logits, sampler scratch and token ids are all four bytes wide; a stop sequence is
  // a u32 code and a boxed slice.
  const WORD_BYTES: nat := 4
  const STOP_BYTES: nat := 24

  function StopTokens(stops: seq<StopSequence>): nat {
    if stops == [] then 0 else StopTokens(stops[..|stops| - 1]) + |stops[|stops| - 1].tokens|
  }

  // Every byte the task allocates: logits, both sampler scratch vectors, history,
  // generated tokens, and its copies of the prompt, end and stop tokens.
  ghost function WorkspaceBytes(vocabulary: nat, history: nat, generated: nat, prompt: nat, eos: nat, stops: seq<StopSequence>): nat {
    4 * (3 * vocabulary + history + generated + prompt + eos + StopTokens(stops)) + 24 * |stops|
  }

  // u64::checked_add and checked_mul over byte counts.
  function AddBytes(a: nat, b: nat): Outcome<nat> {
    if a + b <= U64_MAX then Ok(a + b) else Err(MemoryOverflow)
  }

  function AllocationBytes(length: nat, size: nat): Outcome<nat> {
    if length * size <= U64_MAX then Ok(length * size) else Err(MemoryOverflow)
  }

  method StopTokenBytes(stops: seq<StopSequence>) returns (r: Outcome<nat>)
    ensures r == if WORD_BYTES * StopTokens(stops) <= U64_MAX then Ok(WORD_BYTES * StopTokens(stops)) else Err(MemoryOverflow)
  {
    var total := 0;
    for i := 0 to |stops|
      invariant total == WORD_BYTES * StopTokens(stops[..i]) <= U64_MAX
    {
      assert stops[..i + 1][..i] == stops[..i];
      StopTokensGrow(stops, i + 1);
      var bytes :- AllocationBytes(|stops[i].tokens|, WORD_BYTES);
      total :- AddBytes(total, bytes);
    }
    assert stops[..|stops|] == stops;
    return Ok(total);
  }

  lemma {:induction false} StopTokensGrow(stops: seq<StopSequence>, i: nat)
    requires i <= |stops|
    ensures StopTokens(stops[..i]) <= StopTokens(stops)
    decreases |stops|
  {
    if i < |stops| {
      StopTokensGrow(stops[..|stops| - 1], i);
      assert stops[..|stops| - 1][..i] == stops[..i];
    } else {
      assert stops[..i] == stops;
    }
  }

  // generation_workspace_footprint: the exact byte count, or overflow exactly when it
  // does not fit the ledger's integers.
  method WorkspaceFootprint(vocabulary: nat, history: nat, generated: nat, prompt: nat, eos: nat, stops: seq<StopSequence>)
    returns (r: Outcome<Footprint>)
    ensures var bytes := WorkspaceBytes(vocabulary, history, generated, prompt, eos, stops);
            r == if bytes <= U64_MAX then Ok(Footprint(0, 0, bytes, 0, 0)) else Err(MemoryOverflow)
  {
    var vector :- AllocationBytes(vocabulary, WORD_BYTES);
    var historyBytes :- AllocationBytes(history, WORD_BYTES);
    var generatedBytes :- AllocationBytes(generated, WORD_BYTES);
    var promptBytes :- AllocationBytes(prompt, WORD_BYTES);
    var eosBytes :- AllocationBytes(eos, WORD_BYTES);
    var stopDescriptors :- AllocationBytes(|stops|, STOP_BYTES);
    var stopTokens :- StopTokenBytes(stops);
    var total :- AddBytes(vector, vector);
    total :- AddBytes(total, vector);
    total :- AddBytes(total, historyBytes);
    total :- AddBytes(total, generatedBytes);
    total :- AddBytes(total, promptBytes);
    total :- AddBytes(total, eosBytes);
    total :- AddBytes(total, stopDescriptors);
    total :- AddBytes(total, stopTokens);
    return Ok(Footprint(0, 0, total, 0, 0));
  }

  datatype GenerationRequest = GenerationRequest(
    request: RequestId,
    sequence: SequenceId,
    job: Job,
    configuration: SequenceConfiguration,
    sampling: nat,
    seed: nat,
    quantum: nat,
    minimumTokens: nat,
    minimumRecords: nat
  )

  datatype Preparation = Preparation(vocabulary: nat, sampler: Sampler, workspace: Footprint)

  ghost function RequestBytes(job: Job, vocabulary: nat): nat {
    WorkspaceBytes(vocabulary, |job.prompt| + job.maximumGenerated, job.maximumGenerated, |job.prompt|, |job.eosTokens|, job.stops)
  }

  datatype Admission = Admission(request: StartReceipt, quantum: nat)

  // The scheduler's own admission tests, in the order they are made.
  ghost function Rejection(tasks: Tasks, request: GenerationRequest, tokenCapacity: nat, recordCapacity: nat): Option<RuntimeError> {
    var job, configuration := request.job, request.configuration;
    if request.request in tasks then Some(RequestAlreadyActive(request.request))
    else if job.prompt == [] then Some(CapacityExhausted(Capacity(Tokens, 1, 0)))
    else if |job.prompt| > configuration.maximumPrefillBatch then
      Some(CapacityExhausted(Capacity(Tokens, |job.prompt|, configuration.maximumPrefillBatch)))
    else if request.minimumTokens > tokenCapacity then
      Some(CapacityExhausted(Capacity(Tokens, request.minimumTokens, tokenCapacity)))
    else if request.minimumRecords > recordCapacity then
      Some(CapacityExhausted(Capacity(OutputRecords, request.minimumRecords, recordCapacity)))
    else if exists i :: 0 <= i < |job.stops| && job.stops[i].tokens == [] then Some(CapacityExhausted(Capacity(Tokens, 1, 0)))
    else if |job.prompt| + job.maximumGenerated > configuration.maximumTokens then
      Some(CapacityExhausted(Capacity(Tokens, |job.prompt| + job.maximumGenerated, configuration.maximumTokens)))
    else None
  }

  // What start_generation_request is called with.
  function CallFor(handle: ModelHandle, request: GenerationRequest, prepared: Preparation): StartCall {
    StartCall(handle, request.request, request.sequence, request.configuration, prepared.workspace, Some(prepared.vocabulary))
  }

  ghost predicate PreparedFor(g: Registry, handle: ModelHandle, request: GenerationRequest, prepared: Preparation) {
    handle.id in g.models && GenerationCall(g, handle, request) == CallFor(handle, request, prepared)
  }

  // One entry more, and the others as they were.
  ghost predicate Added<K, V>(before: map<K, V>, after: map<K, V>, key: K) {
    key in after && after == before[key := after[key]]
  }

  function NewTask(handle: ModelHandle, request: GenerationRequest, workspace: Footprint, sampler: Sampler, vocabulary: nat): Task {
    Task(handle, workspace, request.job, request.quantum, sampler, seq(vocabulary, _ => 0.0), request.job.prompt, [],
         PrefillPhase, None, None, None)
  }

  // What an admission asks of the registry: a sequence, and the task's own workspace
  // sized for the model's vocabulary.
  ghost function GenerationCall(g: Registry, handle: ModelHandle, request: GenerationRequest): StartCall
    requires handle.id in g.models
  {
    var vocabulary := g.models[handle.id].descriptor.metadata.vocabularySize;
    StartCall(handle, request.request, request.sequence, request.configuration,
              Footprint(0, 0, RequestBytes(request.job, vocabulary), 0, 0), Some(vocabulary))
  }

  // An admitted generation: started on the model the handle names, with a fresh sampler.
  ghost predicate GenerationStarted(sampling: Sampling, g: Registry, limits: Limits, handle: ModelHandle, request: GenerationRequest,
                                    next: Registry, task: Task, admission: Admission) {
    && handle.id in g.models && g.models[handle.id].handle == handle && !g.models[handle.id].poisoned
    && var call := GenerationCall(g, handle, request);
       var sampler := sampling.create(request.sampling, request.seed, call.expectedLogits.value);
       && sampler.Ok?
       && task == Task(handle, call.workspace, request.job, request.quantum, sampler.value, seq(call.expectedLogits.value, _ => 0.0),
                       request.job.prompt, [], PrefillPhase, None, None, None)
       && StartOutcome(g, limits, call, next, Ok(admission.request))
       && admission.quantum == request.quantum
  }

  // What stands in the way of a sampler and a workspace for the request.
  ghost function Unprepared(sampling: Sampling, g: Registry, handle: ModelHandle, request: GenerationRequest): Option<RuntimeError> {
    if handle.id !in g.models then Some(ModelNotLoaded(handle.id))
    else
      var slot := g.models[handle.id];
      var vocabulary := slot.descriptor.metadata.vocabularySize;
      var sampler := sampling.create(request.sampling, request.seed, vocabulary);
      if slot.handle != handle then Some(StaleModelHandle(handle, slot.handle))
      else if slot.poisoned then Some(ModelDegraded(handle.id))
      else if sampler.Err? then Some(SamplingFailed(sampler.error))
      else if RequestBytes(request.job, vocabulary) > U64_MAX then Some(MemoryOverflow)
      else None
  }

  // The scheduler's own checks, in their order.
  ghost function AdmissionGate(sampling: Sampling, tasks: Tasks, g: Registry, handle: ModelHandle, request: GenerationRequest,
                               tokenCapacity: nat, recordCapacity: nat): Option<RuntimeError> {
    if Rejection(tasks, request, tokenCapacity, recordCapacity).Some? then Rejection(tasks, request, tokenCapacity, recordCapacity)
    else Unprepared(sampling, g, handle, request)
  }

  // The answers a generation's admission gets: to the preflight's plan, to the start's
  // plan, to the creation, and to a destruction if the sequence was not the one planned.
  datatype Replies = Replies(preflight: Result<SequencePlan, nat>, planned: Result<SequencePlan, nat>, created: Result<Sequence, nat>, destroyed: bool)

  // admit, for every answer of the model: the checks, the preflight, then the start.
  ghost predicate AdmissionMeets(gate: Option<RuntimeError>, g: Registry, limits: Limits, shuttingDown: bool, handle: ModelHandle, request: GenerationRequest,
                                 answers: Replies, next: Registry, r: Outcome<StartReceipt>, before: Transcript, after: Transcript) {
    match gate
    case Some(error) => r == Err(error) && next == g && after == before
    case None =>
      handle.id in g.models
      && exists asked, passed ::
        && PreflightMeets(g, limits, shuttingDown, GenerationCall(g, handle, request), answers.preflight, passed, before, asked)
        && if passed.Err? then r == Err(passed.error) && next == g && after == asked
           else StartMeets(g, limits, shuttingDown, GenerationCall(g, handle, request), answers.planned, answers.created, answers.destroyed,
                           next, r, asked, after)
  }

  function ReceiptOf(r: Outcome<Admission>): Outcome<StartReceipt> {
    match r
    case Ok(admission) => Ok(admission.request)
    case Err(error) => Err(error)
  }

  // The trace of a task just admitted.
  ghost function NewTrace(g: Registry, log: Log, r: RequestId, task: Task): Trace
    requires HasRequest(g, r)
  {
    Trace(Run(SequenceOf(g, r), task.logits, task.sampler, []), SequenceOf(g, r), |log|, [], false)
  }

  lemma NewTaskFaithful(m: Machine, g: Registry, limits: Limits, call: StartCall, next: Registry, receipt: StartReceipt, log: Log, task: Task)
    requires Admitted(g, limits, call, next, receipt) && HasRequest(next, call.request)
    requires Shaped(task) && task.phase == PrefillPhase && task.pendingToken == None && task.generated == []
    requires |task.job.prompt| + task.job.maximumGenerated <= call.configuration.maximumTokens
    ensures TaskOk(m, call.request, Moment(next, log, task, NewTrace(next, log, call.request, task)))
  {
    hide Affordable, RoomForRequest, Reference, FinishAfter;
    assert log[|log|..] == [];
  }

  // A started generation joins the schedule with its own workspace.
  lemma TaskJoins(m: Machine, g: Registry, limits: Limits, call: StartCall, next: Registry, receipt: StartReceipt,
                  log: Log, tasks: Tasks, traces: Traces, task: Task)
    requires Scheduled(m, g, log, tasks, traces) && call.request !in tasks
    requires Admitted(g, limits, call, next, receipt) && IndexedRequests(next) && HasRequest(next, call.request)
    requires OthersUndisturbed(g, next, call.request)
    requires next.workspaces == g.workspaces[call.request := call.workspace]
    requires task.workspace == call.workspace
    requires TaskOk(m, call.request, Moment(next, log, task, NewTrace(next, log, call.request, task)))
    ensures Scheduled(m, next, log, tasks[call.request := task], traces[call.request := NewTrace(next, log, call.request, task)])
  {
    hide Admitted, HasRequest, TaskFaithful, Registered, Logged, OthersUndisturbed, NewTrace;
    var r := call.request;
    RegisteredOthers(g, next, tasks, traces, r);
    assert tasks - {r} == tasks && traces - {r} == traces;
  }

  lemma Admissible(tasks: Tasks, request: GenerationRequest, tokenCapacity: nat, recordCapacity: nat)
    requires Rejection(tasks, request, tokenCapacity, recordCapacity).None?
    ensures request.request !in tasks && request.job.prompt != []
    ensures |request.job.prompt| + request.job.maximumGenerated <= request.configuration.maximumTokens
  {
  }

  lemma NewTaskShaped(handle: ModelHandle, request: GenerationRequest, prepared: Preparation)
    requires 0 < request.job.maximumGenerated && 0 < request.quantum && request.job.prompt != []
    ensures var task := NewTask(handle, request, prepared.workspace, prepared.sampler, prepared.vocabulary);
            && Shaped(task) && task.phase == PrefillPhase && task.pendingToken == None && task.generated == []
            && task.workspace == prepared.workspace && task.job == request.job && task.handle == handle
            && Remaining(task) == 5 + 2 * request.job.maximumGenerated
            && task == Task(handle, prepared.workspace, request.job, request.quantum, prepared.sampler, seq(prepared.vocabulary, _ => 0.0),
                            request.job.prompt, [], PrefillPhase, None, None, None)
  {
  }

  lemma NoWorkspaceYet(m: Machine, g: Registry, log: Log, tasks: Tasks, traces: Traces, r: RequestId)
    requires Scheduled(m, g, log, tasks, traces) && r !in tasks
    ensures r !in g.workspaces
  {
    hide AllFaithful, AllRegistered, AllLogged;
  }

  lemma StartedIsActive(g: Registry, limits: Limits, call: StartCall, next: Registry, receipt: StartReceipt)
    requires Admitted(g, limits, call, next, receipt)
    ensures call.request in next.requestIndex
    ensures call.expectedLogits.Some? ==> receipt.logitsCapacity == call.expectedLogits.value
  {
    hide Affordable, RoomForRequest;
  }

  lemma CancellationKept(m: Machine, g: Registry, r: RequestId, task: Task, trace: Trace, reason: CancellationReason)
    requires TaskFaithful(m, task, trace) && Registered(g, r, task, trace)
    ensures var next := task.(cancellation := Some(reason));
            TaskFaithful(m, next, trace) && Registered(g, r, next, trace)
  {
    hide Reference, FinishAfter, AllTokens, StageOf, HasRequest, SequenceOf, AdmittedOn;
    assert RunOf(task.(cancellation := Some(reason)), trace) == RunOf(task, trace);
    hide Rest;
  }

  lemma ScheduleCancelled(m: Machine, g: Registry, log: Log, tasks: Tasks, traces: Traces, r: RequestId, reason: CancellationReason)
    requires Scheduled(m, g, log, tasks, traces) && r in tasks
    ensures Scheduled(m, g, log, tasks[r := tasks[r].(cancellation := Some(reason))], traces)
  {
    hide TaskFaithful, Registered, Logged;
    CancellationKept(m, g, r, tasks[r], traces[r], reason);
    var tasks' := tasks[r := tasks[r].(cancellation := Some(reason))];
    assert tasks'.Keys == tasks.Keys;
  }

  function MarkedFor(task: Task, model: ModelId, reason: CancellationReason): Task {
    if task.handle.id == model then task.(cancellation := Some(reason)) else task
  }

  // Exactly the tasks of one model are marked.
  ghost predicate MarkedExactly(before: Tasks, after: Tasks, model: ModelId, reason: CancellationReason) {
    && after.Keys == before.Keys
    && forall r :: r in before ==> after[r] == if before[r].handle.id == model then before[r].(cancellation := Some(reason)) else before[r]
  }

  lemma AllMarked(before: Tasks, after: Tasks, model: ModelId, reason: CancellationReason)
    requires after.Keys == before.Keys && forall r :: r in after ==> after[r] == MarkedFor(before[r], model, reason)
    ensures MarkedExactly(before, after, model, reason)
  {
  }

  lemma ScheduleMarked(m: Machine, g: Registry, log: Log, tasks: Tasks, traces: Traces, r: RequestId, model: ModelId, reason: CancellationReason)
    requires Scheduled(m, g, log, tasks, traces) && r in tasks
    ensures Scheduled(m, g, log, tasks[r := MarkedFor(tasks[r], model, reason)], traces)
  {
    hide Scheduled;
    if tasks[r].handle.id == model {
      ScheduleCancelled(m, g, log, tasks, traces, r, reason);
    } else {
      assert tasks[r := tasks[r]] == tasks;
    }
  }

  // ----- The scheduler object -----

  class GenerationScheduler {
    const sampling: Sampling
    var tasks: Tasks
    var cursor: Option<RequestId>
    ghost var traces: Traces
    // Every turn taken since the last shutdown, and when in it each task was admitted.
    ghost var history: seq<Turn>
    ghost var since: map<RequestId, nat>

    ghost predicate Valid(runtime: InferenceRuntime, output: Output)
      reads this, runtime, runtime.backend, output
    {
      && Holding(runtime, output)
      && Paced(history, cursor, tasks, since)
    }

    ghost predicate Holding(runtime: InferenceRuntime, output: Output)
      reads this, runtime, runtime.backend, output
    {
      && runtime.Valid()
      && output.Valid()
      && Scheduled(Machine(runtime.backend.kernel, sampling), runtime.registry, output.accepted, tasks, traces)
    }

    constructor (sampling: Sampling)
      ensures this.sampling == sampling && tasks == map[] && traces == map[] && cursor == None
      ensures Paced(history, cursor, tasks, since)
    {
      this.sampling := sampling;
      tasks, cursor, traces := map[], None, map[];
      history, since := [], map[];
    }

    predicate Contains(r: RequestId)
      reads this
    {
      r in tasks
    }

    // admit.
    method Admit(runtime: InferenceRuntime, output: Output, handle: ModelHandle, request: GenerationRequest)
      returns (result: Outcome<Admission>, ghost answers: Replies)
      requires Valid(runtime, output)
      requires 0 < request.job.maximumGenerated && 0 < request.quantum
      modifies this, runtime`registry, runtime.backend
      ensures Valid(runtime, output)
      ensures cursor == old(cursor) && history == old(history)
      ensures since == if result.Ok? then old(since)[request.request := |history|] else old(since)
      ensures AdmissionMeets(old(AdmissionGate(sampling, tasks, runtime.registry, handle, request, output.tokenCapacity, output.recordCapacity)),
                             old(runtime.registry), runtime.limits, runtime.shuttingDown, handle, request, answers,
                             runtime.registry, ReceiptOf(result), old(runtime.backend.Said()), runtime.backend.Said())
      ensures result.Err? ==> tasks == old(tasks) && traces == old(traces)
      ensures result.Ok? ==>
        && tasks.Keys == old(tasks).Keys + {request.request} && request.request !in old(tasks)
        && tasks == old(tasks)[request.request := tasks[request.request]]
        && GenerationStarted(sampling, old(runtime.registry), runtime.limits, handle, request, runtime.registry, tasks[request.request], result.value)
        && Added(old(traces), traces, request.request)
        && Remaining(tasks[request.request]) == 5 + 2 * request.job.maximumGenerated
    {
      hide Consistent, Lawful, Replay, Rejection, Scheduled, Paced, Remaining, StartOutcome, NewTask, RequestBytes, PreflightMeets, StartMeets;
      answers := Replies(Err(0), Err(0), Err(0), true);
      var screened := Screen(output, request);
      if screened.Err? {
        return Err(screened.error), answers;
      }
      var prepared := Prepare(runtime, handle, request);
      if prepared.Err? {
        return Err(prepared.error), answers;
      }
      Admissible(tasks, request, output.tokenCapacity, output.recordCapacity);
      NewTaskShaped(handle, request, prepared.value);
      result, answers := PreflightAndStart(runtime, output, handle, request, prepared.value);
    }

    // The tests of the request itself.
    method Screen(output: Output, request: GenerationRequest) returns (r: Outcome<()>)
      ensures match Rejection(tasks, request, output.tokenCapacity, output.recordCapacity)
              case Some(error) => r == Err(error)
              case None => r == Ok(())
    {
      var job, configuration := request.job, request.configuration;
      if request.request in tasks {
        return Err(RequestAlreadyActive(request.request));
      }
      if job.prompt == [] {
        return Err(CapacityExhausted(Capacity(Tokens, 1, 0)));
      }
      if |job.prompt| > configuration.maximumPrefillBatch {
        return Err(CapacityExhausted(Capacity(Tokens, |job.prompt|, configuration.maximumPrefillBatch)));
      }
      if request.minimumTokens > output.tokenCapacity {
        return Err(CapacityExhausted(Capacity(Tokens, request.minimumTokens, output.tokenCapacity)));
      }
      if request.minimumRecords > output.recordCapacity {
        return Err(CapacityExhausted(Capacity(OutputRecords, request.minimumRecords, output.recordCapacity)));
      }
      for i := 0 to |job.stops|
        invariant forall j :: 0 <= j < i ==> job.stops[j].tokens != []
      {
        if job.stops[i].tokens == [] {
          return Err(CapacityExhausted(Capacity(Tokens, 1, 0)));
        }
      }
      var required := |job.prompt| + job.maximumGenerated;
      if required > configuration.maximumTokens {
        return Err(CapacityExhausted(Capacity(Tokens, required, configuration.maximumTokens)));
      }
      return Ok(());
    }

    // The preflight asks for one plan before the start asks again.
    method PreflightAndStart(runtime: InferenceRuntime, output: Output, handle: ModelHandle, request: GenerationRequest, prepared: Preparation)
      returns (result: Outcome<Admission>, ghost answers: Replies)
      requires Valid(runtime, output)
      requires 0 < request.job.maximumGenerated && 0 < request.quantum && request.job.prompt != []
      requires |request.job.prompt| + request.job.maximumGenerated <= request.configuration.maximumTokens
      requires request.request !in tasks
      requires PreparedFor(runtime.registry, handle, request, prepared)
      modifies this, runtime`registry, runtime.backend
      ensures Valid(runtime, output)
      ensures cursor == old(cursor) && history == old(history)
      ensures since == if result.Ok? then old(since)[request.request := |history|] else old(since)
      ensures AdmissionMeets(None, old(runtime.registry), runtime.limits, runtime.shuttingDown, handle, request, answers,
                             runtime.registry, ReceiptOf(result), old(runtime.backend.Said()), runtime.backend.Said())
      ensures result.Err? ==> tasks == old(tasks) && traces == old(traces)
      ensures result.Ok? ==>
        && StartOutcome(old(runtime.registry), runtime.limits, CallFor(handle, request, prepared), runtime.registry, Ok(result.value.request))
        && result.value.quantum == request.quantum
        && tasks == old(tasks)[request.request := NewTask(handle, request, prepared.workspace, prepared.sampler, prepared.vocabulary)]
        && Added(old(traces), traces, request.request)
    {
      hide Consistent, Lawful, Replay, Scheduled, Paced, Remaining, StartOutcome, NewTask, GenerationCall, PreflightMeets, StartMeets;
      ghost var g, said := runtime.registry, runtime.backend.Said();
      answers := Replies(Err(0), Err(0), Err(0), true);
      ghost var preflight, planned, created, destroyed;
      var passed;
      passed, preflight := runtime.Preflight(CallFor(handle, request, prepared));
      answers := answers.(preflight := preflight);
      ghost var asked := runtime.backend.Said();
      if passed.Err? {
        return Err(passed.error), answers;
      }
      result, planned, created, destroyed := Start(runtime, output, handle, request, prepared);
      answers := answers.(planned := planned, created := created, destroyed := destroyed);
    }

    // The resident model's vocabulary, a sampler, and the workspace to reserve.
    method Prepare(runtime: InferenceRuntime, handle: ModelHandle, request: GenerationRequest) returns (r: Outcome<Preparation>)
      ensures match Unprepared(sampling, runtime.registry, handle, request)
              case Some(error) => r == Err(error)
              case None => r.Ok?
      ensures r.Ok? ==>
        && handle.id in runtime.registry.models && runtime.registry.models[handle.id].handle == handle
        && !runtime.registry.models[handle.id].poisoned
        && r.value.vocabulary == runtime.registry.models[handle.id].descriptor.metadata.vocabularySize
        && sampling.create(request.sampling, request.seed, r.value.vocabulary) == Ok(r.value.sampler)
        && r.value.workspace == Footprint(0, 0, RequestBytes(request.job, r.value.vocabulary), 0, 0)
    {
      hide WorkspaceBytes;
      if handle.id !in runtime.registry.models {
        return Err(ModelNotLoaded(handle.id));
      }
      var slot := runtime.registry.models[handle.id];
      if slot.handle != handle {
        return Err(StaleModelHandle(handle, slot.handle));
      }
      if slot.poisoned {
        return Err(ModelDegraded(handle.id));
      }
      var vocabulary := slot.descriptor.metadata.vocabularySize;
      var sampler := sampling.create(request.sampling, request.seed, vocabulary);
      if sampler.Err? {
        return Err(SamplingFailed(sampler.error));
      }
      var job := request.job;
      var workspace :- WorkspaceFootprint(vocabulary, |job.prompt| + job.maximumGenerated, job.maximumGenerated,
                                          |job.prompt|, |job.eosTokens|, job.stops);
      return Ok(Preparation(vocabulary, sampler.value, workspace));
    }

    // The commit half of admit.
    method Start(runtime: InferenceRuntime, output: Output, handle: ModelHandle, request: GenerationRequest, prepared: Preparation)
      returns (result: Outcome<Admission>, ghost planned: Result<SequencePlan, nat>, ghost created: Result<Sequence, nat>, ghost destroyed: bool)
      requires Valid(runtime, output)
      requires 0 < request.job.maximumGenerated && 0 < request.quantum && request.job.prompt != []
      requires |request.job.prompt| + request.job.maximumGenerated <= request.configuration.maximumTokens
      requires request.request !in tasks
      modifies this, runtime`registry, runtime.backend
      ensures Valid(runtime, output)
      ensures cursor == old(cursor) && history == old(history)
      ensures since == if result.Ok? then old(since)[request.request := |history|] else old(since)
      ensures result.Err? ==> tasks == old(tasks) && traces == old(traces)
      ensures StartOutcome(old(runtime.registry), runtime.limits, CallFor(handle, request, prepared), runtime.registry, ReceiptOf(result))
      ensures StartMeets(old(runtime.registry), runtime.limits, runtime.shuttingDown, CallFor(handle, request, prepared), planned, created, destroyed,
                         runtime.registry, ReceiptOf(result), old(runtime.backend.Said()), runtime.backend.Said())
      ensures result.Ok? ==>
        && result.value.quantum == request.quantum
        && tasks == old(tasks)[request.request := NewTask(handle, request, prepared.workspace, prepared.sampler, prepared.vocabulary)]
        && Added(old(traces), traces, request.request)
    {
      hide Consistent, Lawful, Replay, Scheduled, OthersUndisturbed, StartOutcome, HasRequest, Admitted,
           IndicesConsistent, SequenceOf, TaskOk, NewTrace, NewTask, Paced, Remaining, StartMeets;
      ghost var m, g := Machine(runtime.backend.kernel, sampling), runtime.registry;
      var call := CallFor(handle, request, prepared);
      NoWorkspaceYet(m, g, output.accepted, tasks, traces, request.request);
      var started;
      started, planned, created, destroyed := runtime.StartRequest(call);
      StartIsolates(g, runtime.limits, call, runtime.registry, started);
      ActiveFacts(runtime.registry, runtime.limits, runtime.backend.world, request.request);
      if started.Err? {
        ScheduleKept(m, g, runtime.registry, output.accepted, tasks, traces, request.request);
        return Err(started.error), planned, created, destroyed;
      }
      StartedReceipt(g, runtime.limits, call, runtime.registry, started);
      var task := NewTask(handle, request, prepared.workspace, prepared.sampler, prepared.vocabulary);
      NewTaskShaped(handle, request, prepared);
      NewTaskFaithful(m, g, runtime.limits, call, runtime.registry, started.value, output.accepted, task);
      TaskJoins(m, g, runtime.limits, call, runtime.registry, started.value, output.accepted, tasks, traces, task);
      AdmittedPaced(history, cursor, tasks, since, request.request, task);
      since := since[request.request := |history|];
      tasks := tasks[request.request := task];
      traces := traces[request.request := NewTrace(runtime.registry, output.accepted, request.request, task)];
      return Ok(Admission(started.value, request.quantum)), planned, created, destroyed;
    }

    // How long a scheduled task can take, in turns of the whole scheduler: if no request
    // outside `all` has waited since it was admitted, it ends within |all| turns for each
    // token sampled or published and each push refused, and leaves four rounds later.
    lemma TaskIsBounded(runtime: InferenceRuntime, output: Output, r: RequestId, all: set<RequestId>)
      requires Valid(runtime, output) && r in tasks && r in all
      ensures r in since && since[r] <= |history|
      ensures var own, maximum := history[since[r]..], tasks[r].job.maximumGenerated;
              (forall k :: 0 <= k < |own| ==> own[k].waiting <= all) ==>
                && (!tasks[r].phase.TerminalPhase? ==> |own| < |all| * (2 * maximum + 1 + Refusals(own, r)))
                && |own| < |all| * (2 * maximum + 5 + Stalls(own, r))
    {
      hide Holding, Orderly, Remaining, Turns, Stalls, Refusals;
      var own := history[since[r]..];
      if forall k :: 0 <= k < |own| ==> own[k].waiting <= all {
        forall k | since[r] <= k < |history|
          ensures history[k].waiting <= all
        {
          assert own[k - since[r]] == history[k];
        }
        LeavesInTime(history, cursor, tasks, since, r, all);
        if !tasks[r].phase.TerminalPhase? {
          EndsInTime(history, cursor, tasks, since, r, all);
        }
      }
    }

    // next_request.
    method NextRequest() returns (r: Option<RequestId>)
      ensures r.None? <==> tasks == map[]
      ensures r.Some? ==> IsNext(tasks.Keys, cursor, r.value)
    {
      if cursor.Some? {
        var later := set x | x in tasks && x > cursor.value;
        assert forall x :: x in tasks && x > cursor.value ==> x in later;
        if later != {} {
          var pick := First(later);
          return Some(pick);
        }
      }
      if tasks == map[] {
        return None;
      }
      var pick := FirstKey(tasks);
      return Some(pick);
    }

    // advance: one opportunity for the next request in round-robin order. Only its task
    // changes; a completed one leaves with its workspace.
    method AdvanceNext(runtime: InferenceRuntime, output: Output)
      returns (result: Advance, ghost picked: Option<RequestId>, ghost before: Moment, ghost after: Moment, ghost rejected: bool)
      requires Valid(runtime, output)
      modifies this, runtime`registry, runtime.backend`log, runtime.backend`world, output
      ensures Valid(runtime, output)
      ensures picked.None? <==> old(tasks) == map[]
      ensures picked.None? ==>
        && result == Advance(false, None) && tasks == old(tasks) && output.accepted == old(output.accepted)
        && runtime.registry == old(runtime.registry) && history == old(history) && cursor == old(cursor)
      ensures picked.Some? ==>
        && IsNext(old(tasks).Keys, old(cursor), picked.value) && cursor == picked
        && picked.value in old(tasks) && picked.value in old(traces)
        && before == Moment(old(runtime.registry), old(output.accepted), old(tasks)[picked.value], old(traces)[picked.value])
        && Stepped(Machine(runtime.backend.kernel, sampling), picked.value, before, after, result, rejected)
        && output.refused == old(output.refused) + (if rejected then 1 else 0)
        && output.accepted == after.log
        && (result.completed.Some? ==> after.g.generationWorkspaces > 0 && picked.value in after.g.workspaces)
        && runtime.registry == (if result.completed.Some? then ReleaseWorkspace(after.g, picked.value) else after.g)
        && history == old(history) + [Turn(old(tasks).Keys, picked.value, result.progressed, rejected, before.task.phase.TerminalPhase?)]
        && tasks == (if result.completed.Some? then old(tasks) - {picked.value} else old(tasks)[picked.value := after.task])
        && traces == (if result.completed.Some? then old(traces) - {picked.value} else old(traces)[picked.value := after.trace])
    {
      hide Consistent, Lawful, Replay, Scheduled, TaskOk, Isolated, IndexedRequests, Remaining, IsNext, Completed, HasRequest, Minus, Paced, TurnTaken, Stepped;
      ghost var m := Machine(runtime.backend.kernel, sampling);
      before, after := *, *;
      rejected := false;
      var next := NextRequest();
      picked := next;
      if next.None? {
        return Advance(false, None), picked, before, after, rejected;
      }
      var r := next.value;
      cursor := next;
      Waiting(tasks.Keys, old(cursor), r);
      TracedTask(m, runtime.registry, output.accepted, tasks, traces, r);
      before := Moment(runtime.registry, output.accepted, tasks[r], traces[r]);
      OneOfAll(m, r, before, tasks, traces);
      var task;
      ghost var trace;
      task, result, trace, rejected := AdvanceTask(runtime, output, sampling, r, tasks[r], m, traces[r]);
      after := Moment(runtime.registry, output.accepted, task, trace);
      ghost var turn := Turn(tasks.Keys, r, result.progressed, rejected, before.task.phase.TerminalPhase?);
      StepPaced(m, before, after, result, history, old(cursor), tasks, since, turn);
      StepLeaves(m, r, before, after, result, rejected);
      history := history + [turn];
      since := if result.completed.Some? then since - {r} else since;
      Settle(runtime, output, r, task, result.completed.Some?, m, before, after);
    }

    // The end of advance: a completed task leaves with its workspace, any other is put back.
    method Settle(runtime: InferenceRuntime, output: Output, r: RequestId, task: Task, completed: bool,
                  ghost m: Machine, ghost before: Moment, ghost after: Moment)
      requires runtime.Valid() && output.Valid() && IndexedRequests(runtime.registry)
      requires m == Machine(runtime.backend.kernel, sampling)
      requires r in tasks && r in traces && before.task == tasks[r]
      requires Scheduled(m, before.g, before.log, tasks, traces) && Isolated(r, before, after)
      requires after.g == runtime.registry && after.log == output.accepted && after.task == task
      requires !completed ==> TaskOk(m, r, after)
      modifies `tasks, `traces, runtime`registry
      ensures Holding(runtime, output)
      ensures tasks == if completed then old(tasks) - {r} else old(tasks)[r := task]
      ensures traces == if completed then old(traces) - {r} else old(traces)[r := after.trace]
      ensures completed ==> old(runtime.registry).generationWorkspaces > 0 && r in old(runtime.registry).workspaces
      ensures runtime.registry == if completed then ReleaseWorkspace(after.g, r) else after.g
    {
      hide Consistent, Lawful, Replay, Scheduled, TaskOk, Isolated, IndexedRequests, Minus;
      if completed {
        WorkspaceOf(m, r, before, after, tasks, traces);
        var footprint := tasks[r].workspace;
        var released := runtime.ReleaseGenerationWorkspace(footprint, r);
        TaskLeaves(m, r, before, after, tasks, traces, runtime.registry);
        tasks, traces := tasks - {r}, traces - {r};
      } else {
        WithTask(m, r, before, after, tasks, traces);
        tasks, traces := tasks[r := task], traces[r := after.trace];
      }
    }

    // request_cancellation.
    method RequestCancellation(runtime: InferenceRuntime, output: Output, r: RequestId, reason: CancellationReason) returns (result: Outcome<()>)
      requires Valid(runtime, output)
      modifies `tasks
      ensures Valid(runtime, output)
      ensures r !in old(tasks) ==> result == Err(RequestNotActive(r)) && tasks == old(tasks)
      ensures r in old(tasks) ==> result == Ok(()) && tasks == old(tasks)[r := old(tasks)[r].(cancellation := Some(reason))]
    {
      hide Consistent, Lawful, Replay, Scheduled, Paced;
      if r !in tasks {
        return Err(RequestNotActive(r));
      }
      MarkedPaced(history, cursor, tasks, since, r, tasks[r].(cancellation := Some(reason)));
      ScheduleCancelled(Machine(runtime.backend.kernel, sampling), runtime.registry, output.accepted, tasks, traces, r, reason);
      tasks := tasks[r := tasks[r].(cancellation := Some(reason))];
      return Ok(());
    }

    // request_model_cancellation: marks exactly the tasks of one model.
    method RequestModelCancellation(runtime: InferenceRuntime, output: Output, model: ModelId, reason: CancellationReason)
      requires Valid(runtime, output)
      modifies `tasks
      ensures Valid(runtime, output)
      ensures MarkedExactly(old(tasks), tasks, model, reason)
    {
      hide Consistent, Lawful, Replay, Scheduled, MarkedFor, Paced, Holding, MarkedExactly;
      ghost var before := tasks;
      var todo := tasks.Keys;
      while todo != {}
        invariant Valid(runtime, output)
        invariant tasks.Keys == before.Keys && todo <= tasks.Keys
        invariant forall r :: r in tasks ==> tasks[r] == if r in todo then before[r] else MarkedFor(before[r], model, reason)
        decreases |todo|
      {
        var r := First(todo);
        MarkOne(runtime, output, r, model, reason);
        todo := todo - {r};
      }
      AllMarked(before, tasks, model, reason);
    }

    method MarkOne(runtime: InferenceRuntime, output: Output, r: RequestId, model: ModelId, reason: CancellationReason)
      requires Valid(runtime, output) && r in tasks
      modifies `tasks
      ensures Valid(runtime, output)
      ensures tasks == old(tasks)[r := MarkedFor(old(tasks)[r], model, reason)]
    {
      hide Consistent, Lawful, Replay, Scheduled, Paced, MarkedFor;
      MarkedKeeps(Machine(runtime.backend.kernel, sampling), runtime.registry, output.accepted, tasks, traces,
                  history, cursor, since, r, model, reason);
      tasks := tasks[r := MarkedFor(tasks[r], model, reason)];
    }

    // discard_all: every task goes, and every workspace is handed back.
    method DiscardAll(runtime: InferenceRuntime, output: Output) returns (result: Outcome<()>)
      requires Valid(runtime, output)
      modifies this, runtime`registry
      ensures Valid(runtime, output)
      ensures result == Ok(()) && tasks == map[] && cursor == None && history == [] && since == map[]
      ensures runtime.registry.workspaces == map[]
      ensures runtime.registry.models == old(runtime.registry).models && runtime.registry.pendingModels == old(runtime.registry).pendingModels
    {
      hide Consistent, Lawful, Replay, Scheduled, HasRequest;
      cursor := None;
      while tasks != map[]
        invariant Holding(runtime, output)
        invariant cursor == None
        invariant runtime.registry.models == old(runtime.registry).models && runtime.registry.pendingModels == old(runtime.registry).pendingModels
        decreases |tasks|
      {
        DiscardFirst(runtime, output);
      }
      NoTasks(Machine(runtime.backend.kernel, sampling), runtime.registry, output.accepted, tasks, traces);
      history, since := [], map[];
      NothingPaced();
      return Ok(());
    }

    method DiscardFirst(runtime: InferenceRuntime, output: Output)
      requires Holding(runtime, output) && tasks != map[]
      modifies `tasks, `traces, runtime`registry
      ensures Holding(runtime, output)
      ensures |tasks| < |old(tasks)|
      ensures runtime.registry.models == old(runtime.registry).models && runtime.registry.pendingModels == old(runtime.registry).pendingModels
    {
      hide Consistent, Lawful, Replay, Scheduled, HasRequest, IndexedRequests, IndicesConsistent, Minus;
      ghost var g := runtime.registry;
      var r := FirstKey(tasks);
      HeldWorkspace(Machine(runtime.backend.kernel, sampling), g, output.accepted, tasks, traces, r);
      ActiveFacts(g, runtime.limits, runtime.backend.world, r);
      var footprint := tasks[r].workspace;
      var released := runtime.ReleaseGenerationWorkspace(footprint, r);
      TaskDiscarded(Machine(runtime.backend.kernel, sampling), g, runtime.registry, output.accepted, tasks, traces, r);
      WithoutKey(tasks, r);
      tasks, traces := tasks - {r}, traces - {r};
    }
  }

  // What the registry's and the task's own proofs take from one step.
  lemma StepParts(m: Machine, r: RequestId, s: Moment, s': Moment, advance: Advance, rejected: bool)
    requires Stepped(m, r, s, s', advance, rejected)
    ensures Isolated(r, s, s')
    ensures advance.completed.None? ==> TaskOk(m, r, s')
    ensures advance.completed.Some? ==> advance == Advance(true, Some(r)) && Completed(r, s, s')
    ensures s'.task.job == s.task.job
    ensures s.task.phase.TerminalPhase? ==> s'.task.phase.TerminalPhase?
    ensures advance.completed.None? && advance.progressed ==> Remaining(s'.task) < Remaining(s.task)
    ensures !advance.progressed ==>
      advance.completed.None? && Remaining(s'.task) == Remaining(s.task) && (rejected || s.task.phase.TerminalPhase?)
  {
    hide OthersUndisturbed, OnlyFrom, TaskOk, Remaining, EndExplained, Completed, HasRequest;
  }

  lemma StepTakesTurn(m: Machine, s: Moment, s': Moment, advance: Advance, tasks: Tasks, cursor: Option<RequestId>, turn: Turn)
    requires Stepped(m, turn.pick, s, s', advance, turn.refused)
    requires turn.pick in tasks && s.task == tasks[turn.pick] && IsNext(tasks.Keys, cursor, turn.pick)
    requires turn.waiting == tasks.Keys && turn.progressed == advance.progressed && turn.ended == s.task.phase.TerminalPhase?
    ensures TurnTaken(tasks, cursor, turn, s'.task, advance.completed.Some?)
  {
    hide Stepped, Isolated, TaskOk, Completed, Remaining, IsNext;
    StepParts(m, turn.pick, s, s', advance, turn.refused);
  }

  lemma StepPaced(m: Machine, s: Moment, s': Moment, advance: Advance,
                  h: seq<Turn>, cursor: Option<RequestId>, tasks: Tasks, since: map<RequestId, nat>, turn: Turn)
    requires Paced(h, cursor, tasks, since)
    requires Stepped(m, turn.pick, s, s', advance, turn.refused)
    requires turn.pick in tasks && s.task == tasks[turn.pick] && IsNext(tasks.Keys, cursor, turn.pick)
    requires turn.waiting == tasks.Keys && turn.progressed == advance.progressed && turn.ended == s.task.phase.TerminalPhase?
    ensures var r, completed := turn.pick, advance.completed.Some?;
            Paced(h + [turn], Some(r), if completed then tasks - {r} else tasks[r := s'.task], if completed then since - {r} else since)
  {
    hide Paced, Stepped, TurnTaken, IsNext;
    StepTakesTurn(m, s, s', advance, tasks, cursor, turn);
    TurnPaced(h, cursor, tasks, since, turn, s'.task, advance.completed.Some?);
  }

  lemma StepLeaves(m: Machine, r: RequestId, s: Moment, s': Moment, advance: Advance, rejected: bool)
    requires Stepped(m, r, s, s', advance, rejected)
    ensures Isolated(r, s, s')
    ensures advance.completed.None? ==> TaskOk(m, r, s')
    ensures advance.completed.Some? ==> advance == Advance(true, Some(r)) && Completed(r, s, s')
  {
    hide Isolated, TaskOk, Remaining, MovesOn, Completed;
  }

  lemma MarkedKeeps(m: Machine, g: Registry, log: Log, tasks: Tasks, traces: Traces, h: seq<Turn>, cursor: Option<RequestId>,
                    since: map<RequestId, nat>, r: RequestId, model: ModelId, reason: CancellationReason)
    requires Scheduled(m, g, log, tasks, traces) && Paced(h, cursor, tasks, since) && r in tasks
    ensures var tasks' := tasks[r := MarkedFor(tasks[r], model, reason)];
            Scheduled(m, g, log, tasks', traces) && Paced(h, cursor, tasks', since)
  {
    hide Scheduled, Paced;
    ScheduleMarked(m, g, log, tasks, traces, r, model, reason);
    MarkedPaced(h, cursor, tasks, since, r, MarkedFor(tasks[r], model, reason));
  }

  lemma Waiting(ids: set<nat>, cursor: Option<nat>, r: nat)
    requires IsNext(ids, cursor, r)
    ensures r in ids
  {
  }

  lemma OneOfAll(m: Machine, r: RequestId, s: Moment, tasks: Tasks, traces: Traces)
    requires Scheduled(m, s.g, s.log, tasks, traces) && r in tasks && r in traces && s.task == tasks[r] && s.trace == traces[r]
    ensures TaskOk(m, r, s)
  {
    hide TaskFaithful, Registered, Logged;
  }

  lemma WorkspaceOf(m: Machine, r: RequestId, s: Moment, s': Moment, tasks: Tasks, traces: Traces)
    requires Scheduled(m, s.g, s.log, tasks, traces) && r in tasks && Isolated(r, s, s')
    ensures r in s'.g.workspaces && s'.g.workspaces[r] == tasks[r].workspace
  {
    hide AllFaithful, AllRegistered, AllLogged, OthersUndisturbed;
  }

  lemma HeldWorkspace(m: Machine, g: Registry, log: Log, tasks: Tasks, traces: Traces, r: RequestId)
    requires Scheduled(m, g, log, tasks, traces) && r in tasks
    ensures r in g.workspaces && g.workspaces[r] == tasks[r].workspace && r in traces
  {
    hide TaskFaithful, AllRegistered, AllLogged;
  }

  lemma TaskDiscarded(m: Machine, g: Registry, g': Registry, log: Log, tasks: Tasks, traces: Traces, r: RequestId)
    requires Scheduled(m, g, log, tasks, traces) && r in tasks && r in g.workspaces && g.generationWorkspaces > 0
    requires g' == ReleaseWorkspace(g, r) && IndexedRequests(g)
    ensures Scheduled(m, g', log, tasks - {r}, traces - {r})
  {
    hide Minus, Scheduled, HasRequest, Isolated;
    TracedTask(m, g, log, tasks, traces, r);
    var s := Moment(g, log, tasks[r], traces[r]);
    IsolatedReflexive(r, s);
    TaskLeaves(m, r, s, s, tasks, traces, g');
  }

  lemma TracedTask(m: Machine, g: Registry, log: Log, tasks: Tasks, traces: Traces, r: RequestId)
    requires Scheduled(m, g, log, tasks, traces) && r in tasks
    ensures r in traces
  {
    hide TaskFaithful, AllRegistered, AllLogged;
  }

  lemma NoTasks(m: Machine, g: Registry, log: Log, tasks: Tasks, traces: Traces)
    requires Scheduled(m, g, log, tasks, traces) && tasks == map[]
    ensures g.workspaces == map[]
  {
    hide TaskFaithful, AllRegistered, AllLogged;
    assert g.workspaces.Keys == {};
  }

  lemma StartedReceipt(g: Registry, limits: Limits, call: StartCall, next: Registry, result: Outcome<StartReceipt>)
    requires StartOutcome(g, limits, call, next, result) && result.Ok?
    ensures Admitted(g, limits, call, next, result.value) && call.request in next.requestIndex
  {
    hide Admitted;
    StartedIsActive(g, limits, call, next, result.value);
  }
}
