// The worker's step relation (dispatch in worker.rs and the steps of its loop): commands,
// scheduling turns, pulls and maintenance, in any order, keep the whole system valid.
module Worker {
  import opened Common
  import opened Footprints
  import opened Lifecycle
  import opened RuntimeTypes
  import opened BackendProtocol
  import opened Backends
  import opened Registry
  import opened RegistrySteps
  import opened RegistryModelSteps
  import opened RuntimeSpec
  import opened RequestFrames
  import opened Runtime
  import opened TokenOutput
  import opened Generation
  import opened SchedulerSpec
  import opened Fairness
  import opened Pacing
  import opened Scheduler

  // Nothing of any task's request was touched.
  lemma ScheduleQuiet(m: Machine, g: Registry, g': Registry, log: Log, tasks: Tasks, traces: Traces)
    requires Scheduled(m, g, log, tasks, traces)
    requires Quiet(g, g') && IndexedRequests(g')
    ensures Scheduled(m, g', log, tasks, traces)
  {
    hide Quiet, TaskFaithful, Registered, Logged, HasRequest;
    QuietUndisturbs(g, g', 0);
    forall r | r in tasks
      ensures Registered(g', r, tasks[r], traces[r])
    {
      UndisturbedAll(g, g', r);
      RegisteredKept(g, g', r, tasks[r], traces[r]);
    }
  }

  lemma UndisturbedAll(g: Registry, g': Registry, r: RequestId)
    requires OthersUndisturbed(g, g', 0) && Undisturbed(g, g', 0)
    ensures Undisturbed(g, g', r)
  {
    hide Undisturbed;
  }

  // A request that its own scheduler did not finish, but somebody else did.
  lemma ScheduleFinished(m: Machine, g: Registry, g': Registry, log: Log, tasks: Tasks, traces: Traces, r: RequestId)
    requires Scheduled(m, g, log, tasks, traces)
    requires OthersUndisturbed(g, g', r) && Undisturbed(g, g', r) && IndexedRequests(g') && g'.workspaces == g.workspaces
    ensures Scheduled(m, g', log, tasks, traces)
  {
    hide TaskFaithful, Registered, Logged, HasRequest, Undisturbed;
    forall x | x in tasks
      ensures Registered(g', x, tasks[x], traces[x])
    {
      RegisteredKept(g, g', x, tasks[x], traces[x]);
    }
  }

  ghost function Touched(tasks: Tasks, traces: Traces, r: RequestId): Traces {
    if r in tasks && r in traces then traces[r := traces[r].(touched := true)] else traces
  }

  // A direct execution behind the scheduler's back gives up one task's stream guarantee
  // and nothing else.
  lemma ScheduleTouched(m: Machine, g: Registry, g': Registry, log: Log, tasks: Tasks, traces: Traces, r: RequestId)
    requires Scheduled(m, g, log, tasks, traces)
    requires OthersUndisturbed(g, g', r) && IndexedRequests(g') && g'.workspaces == g.workspaces
    requires r !in g.requestIndex ==> g' == g
    ensures Scheduled(m, g', log, tasks, Touched(tasks, traces, r))
  {
    hide TaskFaithful, Registered, Logged, HasRequest, OthersUndisturbed, Undisturbed;
    if r !in tasks {
      ScheduleKept(m, g, g', log, tasks, traces, r);
    } else {
      var traces' := Touched(tasks, traces, r);
      TouchedTask(m, g, g', log, r, tasks[r], traces[r]);
      RegisteredOthers(g, g', tasks, traces, r);
      forall x | x in tasks
        ensures TaskFaithful(m, tasks[x], traces'[x]) && Registered(g', x, tasks[x], traces'[x]) && Logged(log, x, traces'[x])
      {
        if x != r {
          assert x in tasks - {r};
        }
      }
    }
  }

  lemma TouchedTask(m: Machine, g: Registry, g': Registry, log: Log, r: RequestId, task: Task, trace: Trace)
    requires TaskFaithful(m, task, trace) && Registered(g, r, task, trace) && Logged(log, r, trace)
    requires r in g'.requestIndex ==> HasRequest(g', r)
    requires r !in g.requestIndex ==> g' == g
    ensures var trace' := trace.(touched := true);
            TaskFaithful(m, task, trace') && Registered(g', r, task, trace') && Logged(log, r, trace')
  {
    hide ForRequest, Follows, StageOf, AllTokens, FinishAfter, SequenceOf, HasRequest;
  }

  // Every model and sequence the backend ever handed out has been released.
  ghost predicate AllReleased(w: World) {
    && (forall k :: k in w.models ==> w.models[k] == Unloaded)
    && (forall k :: k in w.sequences ==> w.sequences[k].status == Destroyed)
  }

  // With nothing resident, quarantined or scheduled, the ledger is zero ...
  lemma EmptyLedger(g: Registry, limits: Limits)
    requires LedgerConsistent(g, limits)
    requires g.models == map[] && g.pendingModels == map[] && g.workspaces == map[]
    ensures g.reserved == Zero() && g.reservedWorkspace == Zero() && g.generationWorkspaces == 0
  {
    hide FitsU64, WithinBudget, Sum;
    SumEmpty<ModelId, ModelSlot>(SlotBackend);
    SumEmpty<ModelId, PendingModel>(PendingModelPart);
    SumEmpty<RequestId, Footprint>(Identity);
  }

  // ... and the backend holds nothing of ours.
  lemma NothingHeld(g: Registry, w: World)
    requires OwnershipConsistent(g, w)
    requires g.models == map[] && g.pendingModels == map[]
    ensures AllReleased(w)
  {
  }

  // Whatever is resident, quarantined or scheduled, host and device use stay within the
  // budget, exactly and not just in saturating arithmetic, for any budget that fits.
  lemma WithinBudgetExactly(g: Registry, limits: Limits, w: World)
    requires Consistent(g, limits, w)
    requires limits.budget.host < U64_MAX && limits.budget.device < U64_MAX
    ensures g.reserved.hostWeight + g.reserved.hostWorking <= limits.budget.host
    ensures g.reserved.deviceWeight + g.reserved.deviceWorking <= limits.budget.device
    ensures g.reserved == Plus(BackendTotal(g.models, g.pendingModels), Sum(g.workspaces, Identity))
  {
    hide ModelsConsistent, IndicesConsistent, OwnershipConsistent, Sum, BackendTotal;
  }

  lemma NothingRemains(g: Registry, limits: Limits, w: World)
    requires Consistent(g, limits, w)
    requires g.models == map[] && g.pendingModels == map[] && g.workspaces == map[]
    ensures g.reserved == Zero() && g.reservedWorkspace == Zero() && g.generationWorkspaces == 0 && AllReleased(w)
  {
    hide ModelsConsistent, IndicesConsistent, LedgerConsistent, OwnershipConsistent;
    EmptyLedger(g, limits);
    NothingHeld(g, w);
  }

  datatype Command =
    | LoadModelCommand(model: ModelId)
    | StartCommand(handle: ModelHandle, request: RequestId, sequence: SequenceId, configuration: SequenceConfiguration)
    | GenerateCommand(handle: ModelHandle, generation: GenerationRequest)
    | PrefillCommand(request: RequestId, tokens: seq<Token>, emitLogits: bool, logits: seq<real>)
    | DecodeCommand(request: RequestId, token: Token, logits: seq<real>)
    | CompleteCommand(request: RequestId, finish: FinishReason)
    | CancelCommand(request: RequestId, reason: CancellationReason)
    | UnloadCommand(handle: ModelHandle, policy: UnloadPolicy)
    | ShutdownCommand

  datatype WorkerEvent =
    | ModelLoaded(loaded: Outcome<LoadReceipt>)
    | RequestStarted(started: Outcome<StartReceipt>)
    | GenerationAdmitted(admitted: Outcome<Admission>)
    | ExecutionCompleted(executed: Outcome<Answer>, logits: seq<real>)
    | RequestFinished(finished: Outcome<FinishReason>)
    | CancellationRequested(requested: Outcome<()>)
    | UnloadAnswered(unloaded: Outcome<UnloadReceipt>)
    | ShutdownDone(shutdown: Outcome<(nat, nat)>)

  function WithoutReason(r: Outcome<FinishReason>): Outcome<()> {
    match r
    case Ok(_) => Ok(())
    case Err(error) => Err(error)
  }

  datatype Stop = PreserveRuntime | DropRuntime

  class InferenceWorker {
    const runtime: InferenceRuntime
    const scheduler: GenerationScheduler
    const output: Output

    ghost predicate Valid()
      reads this, runtime, runtime.backend, scheduler, output
    {
      scheduler.Valid(runtime, output)
    }

    constructor (runtime: InferenceRuntime, scheduler: GenerationScheduler, output: Output)
      requires runtime.Valid() && output.Valid() && runtime.registry == EmptyRegistry()
      requires scheduler.tasks == map[] && scheduler.traces == map[]
      requires Paced(scheduler.history, scheduler.cursor, scheduler.tasks, scheduler.since)
      ensures this.runtime == runtime && this.scheduler == scheduler && this.output == output
      ensures Valid()
    {
      hide Consistent, Lawful, Replay;
      this.runtime := runtime;
      this.scheduler := scheduler;
      this.output := output;
    }

    ghost function Machine(): Machine
      reads this, runtime, runtime.backend, scheduler
    {
      Generation.Machine.Machine(runtime.backend.kernel, scheduler.sampling)
    }

    // A direct start is refused for an id the scheduler still owns.
    method StartDirect(handle: ModelHandle, r: RequestId, sid: SequenceId, configuration: SequenceConfiguration)
      returns (result: Outcome<StartReceipt>, ghost planned: Result<SequencePlan, nat>, ghost created: Result<Sequence, nat>, ghost destroyed: bool)
      requires Valid()
      modifies runtime`registry, runtime.backend
      ensures Valid()
      ensures r in scheduler.tasks ==>
        result == Err(RequestAlreadyActive(r)) && runtime.registry == old(runtime.registry) && runtime.backend.Said() == old(runtime.backend.Said())
      ensures r !in scheduler.tasks ==>
        && StartOutcome(old(runtime.registry), runtime.limits, StartCall(handle, r, sid, configuration, Zero(), None), runtime.registry, result)
        && StartMeets(old(runtime.registry), runtime.limits, runtime.shuttingDown, StartCall(handle, r, sid, configuration, Zero(), None),
                      planned, created, destroyed, runtime.registry, result, old(runtime.backend.Said()), runtime.backend.Said())
      ensures runtime.registry.workspaces == old(runtime.registry).workspaces
    {
      hide Consistent, Lawful, Replay, Scheduled, Paced, StartOutcome, StartMeets, IndexedRequests, OthersUndisturbed;
      planned, created, destroyed := Err(0), Err(0), true;
      if scheduler.Contains(r) {
        return Err(RequestAlreadyActive(r)), planned, created, destroyed;
      }
      ghost var g := runtime.registry;
      var call := StartCall(handle, r, sid, configuration, Zero(), None);
      result, planned, created, destroyed := runtime.StartRequest(call);
      StartIsolates(g, runtime.limits, call, runtime.registry, result);
      ActiveFacts(runtime.registry, runtime.limits, runtime.backend.world, r);
      ScheduleKept(Machine(), g, runtime.registry, output.accepted, scheduler.tasks, scheduler.traces, r);
    }

    // A direct execution, scheduled request or not.
    method ExecuteDirect(r: RequestId, call: Call, logits: seq<real>)
      returns (result: Outcome<Answer>, after: seq<real>, ghost destroyed: bool, ghost unloaded: bool)
      requires Valid()
      modifies runtime`registry, runtime.backend`log, runtime.backend`world, scheduler`traces
      ensures Valid()
      ensures scheduler.traces == Touched(scheduler.tasks, old(scheduler.traces), r)
      ensures r in old(runtime.registry).requestIndex ==> HasRequest(old(runtime.registry), r)
      ensures Called(runtime.backend.kernel, old(runtime.registry), r, call, logits, runtime.registry, result, after)
      ensures ExecutionMeets(runtime.backend.kernel, old(runtime.registry), runtime.limits, r, call, logits, destroyed, unloaded,
                             runtime.registry, result, after, old(runtime.backend.log), runtime.backend.log)
      ensures OthersUndisturbed(old(runtime.registry), runtime.registry, r)
    {
      hide Consistent, Lawful, Replay, Scheduled, Paced, IndicesConsistent, OthersUndisturbed, CallConcluded, HasRequest, CheckedCall, SequenceOf, ExecutionMeets;
      ghost var g := runtime.registry;
      ActiveFacts(g, runtime.limits, runtime.backend.world, r);
      result, after, destroyed, unloaded := CallBackend(runtime, r, call, logits);
      ScheduleTouched(Machine(), g, runtime.registry, output.accepted, scheduler.tasks, scheduler.traces, r);
      scheduler.traces := Touched(scheduler.tasks, scheduler.traces, r);
    }

    // A direct completion or an unscheduled cancellation.
    method FinishDirect(r: RequestId, operation: RuntimeOperation, failure: FailureClass, reason: FinishReason)
      returns (result: Outcome<FinishReason>, ghost destroyed: bool, ghost unloaded: bool)
      requires Valid()
      modifies runtime`registry, runtime.backend`log, runtime.backend`world
      ensures Valid()
      ensures result.Ok? ==> result.value == reason
      ensures RemovalMeets(old(runtime.registry), runtime.limits, r, operation, failure, destroyed, unloaded, runtime.registry,
                           WithoutReason(result), old(runtime.backend.log), runtime.backend.log)
      ensures RemovalReported(old(runtime.registry), runtime.registry, r, if result.Ok? then Ok(()) else Err(result.error))
      ensures OthersUndisturbed(old(runtime.registry), runtime.registry, r)
    {
      hide Consistent, Lawful, Replay, Scheduled, Paced, IndexedRequests, IndicesConsistent, OthersUndisturbed, Undisturbed, RemovalMeets;
      ghost var g := runtime.registry;
      var error;
      error, destroyed, unloaded := RemoveActive(runtime, r, operation, failure);
      ScheduleFinished(Machine(), g, runtime.registry, output.accepted, scheduler.tasks, scheduler.traces, r);
      result := if error.Some? then Err(error.value) else Ok(reason);
    }

    method LoadDirect(model: ModelId)
      returns (result: Outcome<LoadReceipt>, ghost planned: Result<LoadPlan, nat>, ghost loaded: Result<Model, nat>, ghost unloaded: bool)
      requires Valid()
      modifies runtime`registry, runtime.backend
      ensures Valid()
      ensures LoadOutcome(old(runtime.registry), runtime.limits, model, runtime.registry, result)
      ensures LoadMeets(old(runtime.registry), runtime.limits, runtime.shuttingDown, model, planned, loaded, unloaded, runtime.registry, result,
                        old(runtime.backend.Said()), runtime.backend.Said())
    {
      hide Consistent, Lawful, Replay, Scheduled, Paced, IndexedRequests, OthersUndisturbed, Undisturbed, LoadOutcome, LoadMeets;
      ghost var g := runtime.registry;
      result, planned, loaded, unloaded := runtime.LoadModel(model);
      LoadIsolates(g, runtime.limits, model, runtime.registry, result, 0);
      ActiveFacts(runtime.registry, runtime.limits, runtime.backend.world, 0);
      ScheduleFinished(Machine(), g, runtime.registry, output.accepted, scheduler.tasks, scheduler.traces, 0);
    }

    // CancelActive marks the model's generations before the registry cancels their requests.
    method UnloadDirect(handle: ModelHandle, policy: UnloadPolicy, now: nat) returns (result: Outcome<UnloadReceipt>)
      requires Valid()
      modifies runtime`registry, runtime.backend`log, runtime.backend`world, scheduler`tasks
      ensures Valid()
      ensures if policy.CancelActive? then MarkedExactly(old(scheduler.tasks), scheduler.tasks, handle.id, ModelUnload)
              else scheduler.tasks == old(scheduler.tasks)
      ensures scheduler.history == old(scheduler.history) && scheduler.cursor == old(scheduler.cursor)
      ensures UnloadOutcome(old(runtime.registry), handle.id, runtime.registry, result)
      ensures UnloadMeets(old(runtime.registry), runtime.limits, handle, policy, now, runtime.registry, result)
      ensures UnloadGranted(old(runtime.registry), handle, policy, result, old(runtime.backend.log), runtime.backend.log)
    {
      hide Consistent, Lawful, Replay, Scheduled, Paced, IndexedRequests, Quiet, OthersKept, MarkedExactly, UnloadMeets, UnloadGranted;
      if policy.CancelActive? {
        scheduler.RequestModelCancellation(runtime, output, handle.id, ModelUnload);
      }
      ghost var g := runtime.registry;
      result := runtime.UnloadModel(handle, policy, now);
      ActiveFacts(runtime.registry, runtime.limits, runtime.backend.world, 0);
      ScheduleQuiet(Machine(), g, runtime.registry, output.accepted, scheduler.tasks, scheduler.traces);
    }

    // Shutdown, then every task is discarded. If it succeeds, nothing is left: no model,
    // request, quarantined resource, task or workspace, the ledger is zero, and every
    // model and sequence the backend ever handed out has been released.
    method ShutdownAll() returns (result: Outcome<(nat, nat)>, stop: Stop)
      requires Valid()
      modifies runtime, runtime.backend`log, runtime.backend`world, scheduler
      ensures Valid()
      ensures scheduler.tasks == map[] && runtime.registry.workspaces == map[] && runtime.shuttingDown
      ensures scheduler.history == [] && scheduler.cursor == None && scheduler.since == map[]
      ensures result.Ok? ==>
        && runtime.registry.models == map[] && runtime.registry.pendingModels == map[]
        && runtime.registry.reserved == Zero() && runtime.registry.generationWorkspaces == 0
        && AllReleased(runtime.backend.world)
      ensures NothingQuarantined(old(runtime.registry)) && Flawless(old(runtime.backend.log), runtime.backend.log) ==> result.Ok?
      ensures stop.PreserveRuntime? <==>
        result.Err? && (runtime.registry.models != map[] || runtime.registry.pendingModels != map[])
    {
      hide Consistent, Lawful, Replay, Scheduled, Paced, IndexedRequests, Quiet, Drained, NextCleanup, Flawless, NothingQuarantined;
      ghost var g := runtime.registry;
      ghost var moves, left;
      result, moves, left := runtime.Shutdown();
      ActiveFacts(runtime.registry, runtime.limits, runtime.backend.world, 0);
      ScheduleQuiet(Machine(), g, runtime.registry, output.accepted, scheduler.tasks, scheduler.traces);
      var discarded := scheduler.DiscardAll(runtime, output);
      if result.Ok? {
        NothingRemains(runtime.registry, runtime.limits, runtime.backend.world);
      }
      var owns := runtime.registry.models != map[] || runtime.registry.pendingModels != map[];
      stop := if result.Err? && owns then PreserveRuntime else DropRuntime;
    }

    // What each command may have done to the registry, and that it was answered in kind.
    ghost predicate Answered(command: Command, now: nat, g: Registry, closing: bool, tasks: Tasks, said: Transcript, event: WorkerEvent)
      reads this, runtime, runtime.backend, scheduler, output
    {
      match command
      case LoadModelCommand(model) =>
        && event.ModelLoaded? && scheduler.tasks == tasks
        && LoadOutcome(g, runtime.limits, model, runtime.registry, event.loaded)
        && exists planned, loaded, unloaded ::
             LoadMeets(g, runtime.limits, closing, model, planned, loaded, unloaded, runtime.registry, event.loaded, said, runtime.backend.Said())
      case StartCommand(handle, r, sid, configuration) =>
        && event.RequestStarted? && scheduler.tasks == tasks
        && if r in tasks then event.started == Err(RequestAlreadyActive(r)) && runtime.registry == g && runtime.backend.Said() == said
           else
             && StartOutcome(g, runtime.limits, StartCall(handle, r, sid, configuration, Zero(), None), runtime.registry, event.started)
             && exists planned, created, destroyed ::
                  StartMeets(g, runtime.limits, closing, StartCall(handle, r, sid, configuration, Zero(), None), planned, created, destroyed,
                             runtime.registry, event.started, said, runtime.backend.Said())
      case GenerateCommand(handle, generation) =>
        && event.GenerationAdmitted?
        && (exists answers ::
              AdmissionMeets(AdmissionGate(scheduler.sampling, tasks, g, handle, generation, output.tokenCapacity, output.recordCapacity),
                             g, runtime.limits, closing, handle, generation, answers,
                             runtime.registry, ReceiptOf(event.admitted), said, runtime.backend.Said()))
        && (event.admitted.Err? ==> scheduler.tasks == tasks)
        && (event.admitted.Ok? ==>
              && generation.request !in tasks && generation.request in scheduler.tasks
              && scheduler.tasks == tasks[generation.request := scheduler.tasks[generation.request]]
              && GenerationStarted(scheduler.sampling, g, runtime.limits, handle, generation, runtime.registry,
                                   scheduler.tasks[generation.request], event.admitted.value))
      case PrefillCommand(r, tokens, emit, logits) =>
        && event.ExecutionCompleted? && scheduler.tasks == tasks
        && exists destroyed, unloaded ::
             ExecutionMeets(runtime.backend.kernel, g, runtime.limits, r, PrefillCall(tokens, emit), logits, destroyed, unloaded,
                            runtime.registry, event.executed, event.logits, said.log, runtime.backend.log)
      case DecodeCommand(r, token, logits) =>
        && event.ExecutionCompleted? && scheduler.tasks == tasks
        && exists destroyed, unloaded ::
             ExecutionMeets(runtime.backend.kernel, g, runtime.limits, r, DecodeCall(token), logits, destroyed, unloaded,
                            runtime.registry, event.executed, event.logits, said.log, runtime.backend.log)
      case CompleteCommand(r, finish) =>
        && scheduler.tasks == tasks
        && Finished(event, g, r, if finish.Cancelled? then Cancellation else Completion,
                    match finish
                    case Cancelled(_) => CancellationClass
                    case BufferExhausted(_) => CapacityFailure
                    case _ => CompletionClass,
                    finish, said)
      case CancelCommand(r, reason) =>
        if r in tasks then
          event == CancellationRequested(Ok(())) && runtime.registry == g && scheduler.tasks == tasks[r := tasks[r].(cancellation := Some(reason))]
        else
          scheduler.tasks == tasks && Finished(event, g, r, Cancellation, CancellationClass, Cancelled(reason), said)
      case UnloadCommand(handle, policy) =>
        && event.UnloadAnswered? && UnloadOutcome(g, handle.id, runtime.registry, event.unloaded)
        && UnloadMeets(g, runtime.limits, handle, policy, now, runtime.registry, event.unloaded)
        && UnloadGranted(g, handle, policy, event.unloaded, said.log, runtime.backend.log)
        && if policy.CancelActive? then MarkedExactly(tasks, scheduler.tasks, handle.id, ModelUnload) else scheduler.tasks == tasks
      case ShutdownCommand =>
        && event.ShutdownDone? && scheduler.tasks == map[] && runtime.shuttingDown
        && (event.shutdown.Ok? ==> runtime.registry.reserved == Zero() && AllReleased(runtime.backend.world))
        && (NothingQuarantined(g) && Flawless(said.log, runtime.backend.log) ==> event.shutdown.Ok?)
    }

    // A removal's answer and effect, for some answers of the backend.
    ghost predicate Finished(event: WorkerEvent, g: Registry, r: RequestId, operation: RuntimeOperation, failure: FailureClass,
                             reason: FinishReason, said: Transcript)
      reads this, runtime, runtime.backend
    {
      && event.RequestFinished? && (event.finished.Ok? ==> event.finished.value == reason)
      && exists destroyed, unloaded ::
           RemovalMeets(g, runtime.limits, r, operation, failure, destroyed, unloaded, runtime.registry, WithoutReason(event.finished),
                        said.log, runtime.backend.log)
    }

    // Only shutdown starts the selection afresh; an admitted generation joins it now.
    ghost predicate TurnsKept(command: Command, event: WorkerEvent, h: seq<Turn>, cursor: Option<RequestId>, since: map<RequestId, nat>)
      reads scheduler
    {
      if command.ShutdownCommand? then scheduler.history == [] && scheduler.cursor == None && scheduler.since == map[]
      else
        && scheduler.history == h && scheduler.cursor == cursor
        && scheduler.since == if command.GenerateCommand? && event.GenerationAdmitted? && event.admitted.Ok?
                              then since[command.generation.request := |h|] else since
    }

    // dispatch.
    method Dispatch(command: Command, now: nat) returns (event: WorkerEvent, stop: Option<Stop>)
      requires Valid()
      requires command.GenerateCommand? ==> 0 < command.generation.job.maximumGenerated && 0 < command.generation.quantum
      modifies runtime, runtime.backend, scheduler
      ensures Valid()
      ensures stop.Some? <==> command.ShutdownCommand?
      ensures output.accepted == old(output.accepted)
      ensures Answered(command, now, old(runtime.registry), old(runtime.shuttingDown), old(scheduler.tasks), old(runtime.backend.Said()), event)
      ensures TurnsKept(command, event, old(scheduler.history), old(scheduler.cursor), old(scheduler.since))
    {
      hide Consistent, Lawful, Replay, Scheduled, Paced, GenerationScheduler.Valid, Touched, MarkedExactly, UnloadOutcome, LoadOutcome, StartOutcome, Called, RemovalReported, HasRequest, OthersUndisturbed, Remaining, Rejection, AllReleased, GenerationStarted, AdmissionGate,
           LoadMeets, StartMeets, AdmissionMeets, ExecutionMeets, RemovalMeets, UnloadMeets, UnloadGranted, NothingQuarantined, Flawless;
      stop := None;
      match command {
        case LoadModelCommand(model) =>
          var loaded;
          ghost var planned, received, unloaded;
          loaded, planned, received, unloaded := LoadDirect(model);
          event := ModelLoaded(loaded);
        case StartCommand(handle, r, sid, configuration) =>
          var started;
          ghost var planned, created, destroyed;
          started, planned, created, destroyed := StartDirect(handle, r, sid, configuration);
          event := RequestStarted(started);
        case GenerateCommand(handle, generation) =>
          var admitted;
          ghost var answers;
          admitted, answers := scheduler.Admit(runtime, output, handle, generation);
          event := GenerationAdmitted(admitted);
        case PrefillCommand(r, tokens, emit, logits) =>
          var executed, after;
          ghost var destroyed, unloaded;
          executed, after, destroyed, unloaded := ExecuteDirect(r, PrefillCall(tokens, emit), logits);
          event := ExecutionCompleted(executed, after);
        case DecodeCommand(r, token, logits) =>
          var executed, after;
          ghost var destroyed, unloaded;
          executed, after, destroyed, unloaded := ExecuteDirect(r, DecodeCall(token), logits);
          event := ExecutionCompleted(executed, after);
        case CompleteCommand(r, finish) =>
          var finished;
          ghost var destroyed, unloaded;
          finished, destroyed, unloaded := FinishDirect(r, FinishOperation(finish), FinishFailureClass(finish), finish);
          event := RequestFinished(finished);
        case CancelCommand(r, reason) =>
          if scheduler.Contains(r) {
            var requested := scheduler.RequestCancellation(runtime, output, r, reason);
            event := CancellationRequested(requested);
          } else {
            var finished;
            ghost var destroyed, unloaded;
            finished, destroyed, unloaded := FinishDirect(r, Cancellation, CancellationClass, Cancelled(reason));
            event := RequestFinished(finished);
          }
        case UnloadCommand(handle, policy) =>
          var unloaded := UnloadDirect(handle, policy, now);
          event := UnloadAnswered(unloaded);
        case ShutdownCommand =>
          var done, how := ShutdownAll();
          event := ShutdownDone(done);
          stop := Some(how);
      }
    }

    // ----- The steps between commands -----

    // The scheduling step: one opportunity for the next task.
    method TakeTurn() returns (result: Advance, ghost picked: Option<RequestId>, ghost before: Moment, ghost after: Moment, ghost rejected: bool)
      requires Valid()
      modifies scheduler, runtime`registry, runtime.backend`log, runtime.backend`world, output
      ensures Valid()
      ensures picked.None? <==> old(scheduler.tasks) == map[]
      ensures picked.None? ==> result == Advance(false, None) && runtime.registry == old(runtime.registry) && scheduler.history == old(scheduler.history)
      ensures picked.Some? ==>
        && IsNext(old(scheduler.tasks).Keys, old(scheduler.cursor), picked.value) && scheduler.cursor == picked
        && picked.value in old(scheduler.tasks) && picked.value in old(scheduler.traces)
        && before == Moment(old(runtime.registry), old(output.accepted), old(scheduler.tasks)[picked.value], old(scheduler.traces)[picked.value])
        && Stepped(Machine(), picked.value, before, after, result, rejected)
        && scheduler.history == old(scheduler.history)
                                + [Turn(old(scheduler.tasks).Keys, picked.value, result.progressed, rejected, before.task.phase.TerminalPhase?)]
        && scheduler.tasks == (if result.completed.Some? then old(scheduler.tasks) - {picked.value}
                               else old(scheduler.tasks)[picked.value := after.task])
    {
      hide Consistent, Lawful, Replay, Scheduled, Paced, Stepped, IsNext, ReleaseWorkspace;
      result, picked, before, after, rejected := scheduler.AdvanceNext(runtime, output);
    }

    // The consumer's side: everything published since the last pull, at any moment.
    method PullOutput(lock: Lock) returns (batch: Option<Batch<OutputState>>)
      requires Valid()
      modifies output
      ensures Valid()
      ensures output.accepted == old(output.accepted)
      ensures batch.None? <==> lock.LockPoisoned?
      ensures batch.Some? ==>
        && output.delivered == old(output.delivered) + [batch.value]
        && Reads(batch.value, output.accepted[old(output.pulled)..])
    {
      hide Consistent, Lawful, Replay, Scheduled, Paced, Reads, Delivers;
      batch := output.Pull(lock);
    }

    // One unload step, and what the worker does with its outcome: requests an expired
    // drain cancelled belong to tasks that are told so. `reported` holds the models whose
    // unload was asked for and not yet answered; other outcomes are dropped.
    method MaintainUnloads(now: nat, reported: set<ModelId>) returns (result: Option<(ModelHandle, Outcome<UnloadReceipt>)>)
      requires Valid()
      modifies runtime`registry, runtime.backend`log, runtime.backend`world, scheduler`tasks
      ensures Valid()
      ensures Quiet(old(runtime.registry), runtime.registry)
      ensures scheduler.history == old(scheduler.history) && scheduler.cursor == old(scheduler.cursor)
      ensures if result.Some? && result.value.0.id in reported && result.value.1.Ok? && result.value.1.value.cancelled > 0
              then MarkedExactly(old(scheduler.tasks), scheduler.tasks, result.value.0.id, DrainTimeout)
              else scheduler.tasks == old(scheduler.tasks)
      ensures result.None? <==> NothingDue(old(runtime.registry), now)
      ensures result.None? ==> runtime.registry == old(runtime.registry)
      ensures result.Some? ==>
        && DueTransition(old(runtime.registry), now, result.value.0.id)
        && UnloadOutcome(old(runtime.registry), result.value.0.id, runtime.registry, result.value.1)
        && (Flawless(old(runtime.backend.log), runtime.backend.log) && CleanModel(old(runtime.registry), result.value.0.id) ==> result.value.1.Ok?)
    {
      hide Consistent, Lawful, Replay, Scheduled, Paced, Quiet, UnloadOutcome, DueTransition, MarkedExactly, NothingDue, Flawless, CleanModel;
      result := AdvanceUnloads(now);
      if result.Some? && result.value.0.id in reported {
        var outcome := result.value.1;
        if outcome.Ok? && outcome.value.cancelled > 0 {
          scheduler.RequestModelCancellation(runtime, output, result.value.0.id, DrainTimeout);
        }
      }
    }

    method RetryCleanup() returns (result: Outcome<CleanupPoll>, ghost c: Cleanup, ghost released: bool, ghost unloaded: bool)
      requires Valid()
      modifies runtime`registry, runtime.backend`log, runtime.backend`world
      ensures Valid()
      ensures NextCleanup(old(runtime.registry), runtime.limits, c)
      ensures c.RetryOf? ==> HasQuarantined(old(runtime.registry), c.model, c.request)
      ensures Effect(runtime.registry, result) == CleanupEffect(old(runtime.registry), runtime.limits, c, released, unloaded)
      ensures Quiet(old(runtime.registry), runtime.registry)
    {
      hide Consistent, Lawful, Replay, Scheduled, Paced, IndexedRequests, Quiet, NextCleanup, CleanupEffect;
      ghost var g := runtime.registry;
      result, c, released, unloaded := runtime.PollCleanup();
      PollIsQuiet(g, runtime.limits, c, released, unloaded);
      ActiveFacts(runtime.registry, runtime.limits, runtime.backend.world, 0);
      ScheduleQuiet(Machine(), g, runtime.registry, output.accepted, scheduler.tasks, scheduler.traces);
    }

    method AdvanceUnloads(now: nat) returns (result: Option<(ModelHandle, Outcome<UnloadReceipt>)>)
      requires Valid()
      modifies runtime`registry, runtime.backend`log, runtime.backend`world
      ensures Valid()
      ensures result.None? <==> NothingDue(old(runtime.registry), now)
      ensures result.None? ==> runtime.registry == old(runtime.registry)
      ensures result.Some? ==>
        && DueTransition(old(runtime.registry), now, result.value.0.id)
        && UnloadOutcome(old(runtime.registry), result.value.0.id, runtime.registry, result.value.1)
        && (Flawless(old(runtime.backend.log), runtime.backend.log) && CleanModel(old(runtime.registry), result.value.0.id) ==> result.value.1.Ok?)
        && (result.value.1.Ok? ==>
              && result.value.1.value.status == UnloadDone
              && result.value.0.id in old(runtime.registry).models
              && var slot := old(runtime.registry).models[result.value.0.id];
                 result.value.1.value.cancelled == if slot.lifecycle.Unloading? then 0 else CancelledBy(slot))
      ensures Quiet(old(runtime.registry), runtime.registry)
    {
      hide Consistent, Lawful, Replay, Scheduled, Paced, IndexedRequests, Quiet, OthersKept, DueTransition, NothingDue, Flawless, CleanModel;
      ghost var g := runtime.registry;
      QuietReflexive(g, 0);
      result := runtime.PollUnloadTransition(now);
      ActiveFacts(runtime.registry, runtime.limits, runtime.backend.world, 0);
      ScheduleQuiet(Machine(), g, runtime.registry, output.accepted, scheduler.tasks, scheduler.traces);
    }
  }
}
