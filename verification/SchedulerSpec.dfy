// How the scheduler's tasks stay tied to the registry and to the output log, as
// conditions on values; Scheduler.dfy proves its methods against them.
module SchedulerSpec {
  import opened Common
  import opened RuntimeTypes
  import opened Registry
  import opened RegistrySteps
  import opened RuntimeSpec
  import opened RequestFrames
  import opened TokenOutput
  import opened Generation

  datatype Advance = Advance(progressed: bool, completed: Option<RequestId>)

  type Tasks = map<RequestId, Task>
  type Traces = map<RequestId, Trace>

  // ----- Terminal phases -----

  function CleanupStateFromError(g: Registry, limits: Limits, r: RequestId, error: RuntimeError): Option<RetryState> {
    match error
    case CleanupFailed(_) => CleanupState(g, limits, r)
    case CleanupRetryExhausted(state) => Some(state)
    case _ => None
  }

  function OrElse<T>(a: Option<T>, b: Option<T>): Option<T> {
    if a.Some? then a else b
  }

  function NewTerminal(outcome: GenerationOutcome, cleanup: Option<RetryState>): Phase {
    TerminalPhase(TerminalPublication(outcome, cleanup, false, false, false))
  }

  // terminal_phase: the outcome survives a cleanup failure that left the sequence
  // quarantined, and is replaced by any other one.
  function TerminalFor(g: Registry, limits: Limits, r: RequestId, outcome: GenerationOutcome, error: Option<RuntimeError>): Phase {
    var retained := CleanupState(g, limits, r);
    match error
    case None => NewTerminal(outcome, retained)
    case Some(CleanupFailed(_)) =>
      var cleanup := OrElse(retained, CleanupStateFromError(g, limits, r, error.value));
      if cleanup.Some? then NewTerminal(outcome, cleanup) else NewTerminal(Failure(error.value), None)
    case Some(CleanupRetryExhausted(_)) =>
      NewTerminal(outcome, OrElse(retained, CleanupStateFromError(g, limits, r, error.value)))
    case Some(e) => NewTerminal(Failure(e), retained)
  }

  // terminal_phase_from_runtime_error.
  function TerminalFromError(g: Registry, limits: Limits, r: RequestId, error: RuntimeError): Phase {
    NewTerminal(Failure(error), OrElse(CleanupState(g, limits, r), CleanupStateFromError(g, limits, r, error)))
  }

  // The ends that trouble with the request itself, between two registries, can put in
  // place of the intended one: it was not active, its model could not be unloaded after
  // it, or that model may not be released yet.
  ghost predicate Blamed(before: Registry, g: Registry, r: RequestId, outcome: GenerationOutcome) {
    match outcome
    case Failure(RequestNotActive(x)) => x == r && r !in before.requestIndex
    case Failure(CleanupFailed(_)) => r in before.requestIndex && ModelNewlyQuarantined(before, g)
    case Failure(LifecycleFailed(InvalidTransition)) => r in before.requestIndex && r !in g.requestIndex
    case _ => false
  }

  // A freshly entered terminal phase for outcome, or for one a cleanup error replaced it with.
  ghost predicate Entered(before: Registry, g: Registry, r: RequestId, phase: Phase, outcome: GenerationOutcome) {
    && phase.TerminalPhase?
    && phase == NewTerminal(phase.terminal.outcome, phase.terminal.initialCleanup)
    && (phase.terminal.outcome == outcome || Blamed(before, g, r, phase.terminal.outcome))
    && (phase.terminal.initialCleanup.None? ==> r !in g.pendingRequestIndex)
  }

  lemma TerminalForEnters(before: Registry, g: Registry, limits: Limits, r: RequestId, outcome: GenerationOutcome, error: Option<RuntimeError>)
    requires IndicesConsistent(g, limits)
    requires error.Some? ==> RemovalReported(before, g, r, Err(error.value)) || (error.value.CleanupFailed? && r in g.pendingRequestIndex)
    ensures Entered(before, g, r, TerminalFor(g, limits, r, outcome, error), outcome)
  {
    hide IndicesConsistent, CleanupState, ModelNewlyQuarantined;
    CleanupStateIsExact(g, limits, r);
  }

  lemma TerminalFromErrorEnters(before: Registry, g: Registry, limits: Limits, r: RequestId, error: RuntimeError)
    requires IndicesConsistent(g, limits)
    ensures Entered(before, g, r, TerminalFromError(g, limits, r, error), Failure(error))
  {
    hide IndicesConsistent, CleanupState;
    CleanupStateIsExact(g, limits, r);
  }

  lemma BlamedInterrupts(before: Registry, g: Registry, r: RequestId, outcome: GenerationOutcome)
    ensures Blamed(before, g, r, outcome) ==> Interrupted(outcome)
  {
  }

  lemma EnteredMeans(before: Registry, g: Registry, r: RequestId, phase: Phase, outcome: GenerationOutcome)
    requires Entered(before, g, r, phase, outcome)
    ensures phase.TerminalPhase? && !phase.terminal.terminalPublished && !phase.terminal.cleanupPublished && !phase.terminal.exhaustionPublished
    ensures phase.terminal.outcome == outcome || Interrupted(phase.terminal.outcome)
    ensures phase.terminal.initialCleanup.None? ==> r !in g.pendingRequestIndex
  {
    BlamedInterrupts(before, g, r, phase.terminal.outcome);
    hide Blamed, Interrupted;
  }

  // Blame since a moment is blame since an earlier one, if only executions lie between.
  lemma EnteredSince(earlier: Registry, before: Registry, g: Registry, r: RequestId, phase: Phase, outcome: GenerationOutcome)
    requires Entered(before, g, r, phase, outcome)
    requires earlier.requestIndex == before.requestIndex && earlier.pendingModels == before.pendingModels
    ensures Entered(earlier, g, r, phase, outcome)
  {
  }

  // ----- Ties to the registry and to the log -----

  // The task's request as the registry sees it: gone for good once the task is
  // terminal, and otherwise holding exactly the sequence the task believes it has.
  ghost predicate Registered(g: Registry, r: RequestId, task: Task, trace: Trace) {
    && (r in g.requestIndex ==> HasRequest(g, r))
    && (task.phase.TerminalPhase? ==>
          r !in g.requestIndex && (task.phase.terminal.initialCleanup.None? ==> r !in g.pendingRequestIndex))
    && (!trace.touched && r in g.requestIndex ==> SequenceOf(g, r) == trace.current)
  }

  // What the request published since its admission is what its trace says.
  ghost predicate Logged(log: Log, r: RequestId, trace: Trace) {
    trace.from <= |log| && ForRequest(log[trace.from..], r) == trace.published
  }

  // Only request r published between two moments.
  ghost predicate OnlyFrom(log: Log, log': Log, r: RequestId) {
    log <= log' && forall i :: |log| <= i < |log'| ==> log'[i].request == r
  }

  lemma ForRequestAfter(log: Log, r: RequestId, push: Push<OutputState>)
    ensures ForRequest(log + [push], r) == ForRequest(log, r) + if push.request == r then [push] else []
  {
    assert (log + [push])[..|log|] == log;
  }

  lemma LoggedAfter(log: Log, r: RequestId, trace: Trace, push: Push<OutputState>)
    requires Logged(log, r, trace)
    ensures Logged(log + [push], r, if push.request == r then trace.(published := trace.published + [push]) else trace)
  {
    assert (log + [push])[trace.from..] == log[trace.from..] + [push];
    ForRequestAfter(log[trace.from..], r, push);
  }

  lemma {:induction false} LoggedApart(log: Log, log': Log, r: RequestId, x: RequestId, trace: Trace)
    requires Logged(log, x, trace) && OnlyFrom(log, log', r) && x != r
    ensures Logged(log', x, trace)
    decreases |log'|
  {
    hide ForRequest;
    if |log'| == |log| {
      assert log' == log;
    } else {
      var before := log'[..|log'| - 1];
      LoggedApart(log, before, r, x, trace);
      LoggedAfter(before, x, trace, log'[|log'| - 1]);
      assert before + [log'[|log'| - 1]] == log';
    }
  }

  lemma OnlyFromTransitive(a: Log, b: Log, c: Log, r: RequestId)
    requires OnlyFrom(a, b, r) && OnlyFrom(b, c, r)
    ensures OnlyFrom(a, c, r)
  {
    forall i | |a| <= i < |c|
      ensures c[i].request == r
    {
      if i < |b| {
        assert c[i] == b[i];
      }
    }
  }

  lemma RegisteredKept(g: Registry, g': Registry, r: RequestId, task: Task, trace: Trace)
    requires Registered(g, r, task, trace) && Undisturbed(g, g', r)
    requires r in g'.requestIndex ==> HasRequest(g', r)
    ensures Registered(g', r, task, trace)
  {
    UndisturbedSequence(g, g', r);
    hide HasRequest, SequenceOf;
  }

  // ----- One task at one moment -----

  datatype Moment = Moment(g: Registry, log: Log, task: Task, trace: Trace)

  ghost predicate TaskOk(m: Machine, r: RequestId, s: Moment) {
    && TaskFaithful(m, s.task, s.trace)
    && Registered(s.g, r, s.task, s.trace)
    && Logged(s.log, r, s.trace)
  }

  // What a task's identity consists of.
  predicate SameTask(task: Task, task': Task) {
    task'.handle == task.handle && task'.workspace == task.workspace && task'.job == task.job && task'.quantum == task.quantum
  }

  predicate SameTrace(trace: Trace, trace': Trace) {
    trace'.origin == trace.origin && trace'.from == trace.from && trace'.touched == trace.touched
  }

  // Between two moments only r's own request, publications and task changed.
  ghost predicate Isolated(r: RequestId, s: Moment, s': Moment) {
    && OthersUndisturbed(s.g, s'.g, r)
    && s'.g.workspaces == s.g.workspaces
    && OnlyFrom(s.log, s'.log, r)
    && SameTask(s.task, s'.task)
    && SameTrace(s.trace, s'.trace)
  }

  lemma IsolatedReflexive(r: RequestId, s: Moment)
    ensures Isolated(r, s, s)
  {
    QuietReflexive(s.g, 0);
    QuietUndisturbs(s.g, s.g, r);
    hide Quiet, OthersUndisturbed, Undisturbed;
  }

  lemma IsolatedTransitive(r: RequestId, a: Moment, b: Moment, c: Moment)
    requires Isolated(r, a, b) && Isolated(r, b, c)
    ensures Isolated(r, a, c)
  {
    hide OthersUndisturbed, OnlyFrom;
    OthersUndisturbedTransitive(a.g, b.g, c.g, r);
    OnlyFromTransitive(a.log, b.log, c.log, r);
  }

  // What one scheduling opportunity does to the task it selects. Every opportunity
  // that reports progress brings the task closer to its removal; one that does not was
  // refused by the output or waits for quarantined cleanup. A task is complete only
  // when its final record is out and the registry holds nothing of its request.
  ghost predicate Stepped(m: Machine, r: RequestId, s: Moment, s': Moment, advance: Advance, rejected: bool) {
    && Isolated(r, s, s')
    && MovesOn(m, r, s, s')
    && (advance.completed.None? ==> TaskOk(m, r, s'))
    && (advance.completed.None? && advance.progressed ==> Remaining(s'.task) < Remaining(s.task))
    && (!advance.progressed ==>
          && advance.completed.None?
          && Remaining(s'.task) == Remaining(s.task)
          && (rejected || (s.task.phase.TerminalPhase? && r in s.g.pendingRequestIndex)))
    && (advance.completed.Some? ==>
          && advance == Advance(true, Some(r))
          && Completed(r, s, s'))
  }

  // ----- What one opportunity offers to the output -----

  // The next record of a task that has ended; none while its cleanup is still awaited.
  ghost function TerminalRecord(g: Registry, limits: Limits, r: RequestId, terminal: TerminalPublication): Option<OutputState> {
    var state := CleanupState(g, limits, r);
    if !terminal.terminalPublished then Some(Terminal(terminal.outcome))
    else if terminal.initialCleanup.None? then Some(Finalized(terminal.outcome))
    else if !terminal.cleanupPublished then
      var retry := if state.Some? then state.value else terminal.initialCleanup.value;
      Some(CleanupPending(terminal.outcome, retry.failure, retry))
    else if state.None? then Some(Finalized(terminal.outcome))
    else if state.value.attempts >= state.value.maximum && !terminal.exhaustionPublished then
      Some(CleanupExhausted(terminal.outcome, state.value.failure, state.value))
    else None
  }

  ghost function AfterRecord(terminal: TerminalPublication, record: OutputState): TerminalPublication {
    match record
    case Terminal(_) => terminal.(terminalPublished := true)
    case CleanupPending(_, _, _) => terminal.(cleanupPublished := true)
    case CleanupExhausted(_, _, _) => terminal.(exhaustionPublished := true)
    case _ => terminal
  }

  // Exactly what is offered, in order, and what becomes of the task: an ended task offers
  // its next record; a cancelled one nothing; any other its pending yield, and once that is
  // out its pending token. A refused record is offered again; a refused token leaves a yield.
  ghost predicate Offered(limits: Limits, r: RequestId, s: Moment, s': Moment, rejected: bool) {
    match s.task.phase
    case TerminalPhase(terminal) =>
      (match TerminalRecord(s.g, limits, r, terminal)
       case None => !rejected && s'.log == s.log && s'.task == s.task
       case Some(record) =>
         if rejected then s'.log == s.log && s'.task == s.task
         else s'.log == s.log + [StatePush(r, record)] && s'.task == s.task.(phase := TerminalPhase(AfterRecord(terminal, record))))
    case _ =>
      if s.task.cancellation.Some? then !rejected && s'.log == s.log
      else if rejected && s.task.pendingYield.Some? && s'.log == s.log then s'.task == s.task
      else
        var log := s.log + if s.task.pendingYield.Some? then [StatePush(r, Yielded(s.task.pendingYield.value))] else [];
        TokenOffered(r, s.task.(pendingYield := None), log, s'.task, s'.log, rejected)
  }

  ghost predicate TokenOffered(r: RequestId, task: Task, log: Log, task': Task, log': Log, rejected: bool) {
    if task.pendingToken.None? then !rejected && log' == log && task'.pendingYield == task.pendingYield
    else if rejected then log' == log && task'.pendingYield.Some? && task' == task.(pendingYield := task'.pendingYield)
    else log' == log + [TokensPush(r, [task.pendingToken.value])] && task'.pendingToken == None && task'.pendingYield == task.pendingYield
  }

  // How a task changes its phase: a requested cancellation ends it at once, before it
  // publishes anything more; without one it ends only as the simple loop does, or for
  // trouble with the request itself; and once it has ended nothing but its publication moves.
  ghost predicate MovesOn(m: Machine, r: RequestId, s: Moment, s': Moment) {
    if s.task.phase.TerminalPhase? then
      && s'.task.phase.TerminalPhase? && s'.g == s.g && s'.task.cancellation == s.task.cancellation
      && s'.task.phase.terminal.outcome == s.task.phase.terminal.outcome
    else
      && s'.task.cancellation == None
      && (s.task.cancellation.Some? ==> s'.task.phase.TerminalPhase? && s'.log == s.log)
      && (s'.task.phase.TerminalPhase? ==> EndExplained(m, r, s, s'.g, s'.task.phase.terminal.outcome))
  }

  ghost predicate EndExplained(m: Machine, r: RequestId, s: Moment, g: Registry, outcome: GenerationOutcome) {
    || Blamed(s.g, g, r, outcome)
    || (if s.task.cancellation.Some? then outcome == Graceful(Cancelled(s.task.cancellation.value))
        else !s.trace.touched && s.trace.origin.generated == [] && 0 < s.task.job.maximumGenerated
             ==> outcome == Reference(m, s.task.job, s.trace.origin).outcome)
  }

  lemma EndsExplained(m: Machine, r: RequestId, s: Moment, g: Registry, phase: Phase, outcome: GenerationOutcome)
    requires Entered(s.g, g, r, phase, outcome) && EndExplained(m, r, s, g, outcome)
    ensures EndExplained(m, r, s, g, phase.terminal.outcome)
  {
    hide Blamed, Reference;
  }

  ghost predicate Completed(r: RequestId, s: Moment, s': Moment) {
    && s.task.phase.TerminalPhase?
    && s'.g == s.g
    && r !in s'.g.requestIndex && r !in s'.g.pendingRequestIndex
    && Logged(s'.log, r, s'.trace)
    && s'.trace.published == s.trace.published + [StatePush(r, Finalized(s.task.phase.terminal.outcome))]
    && StageOf(s'.trace.published) == Closed(s.task.phase.terminal.outcome)
  }

  // ----- All tasks -----

  ghost predicate AllFaithful(m: Machine, tasks: Tasks, traces: Traces) {
    tasks.Keys == traces.Keys && forall r :: r in tasks ==> TaskFaithful(m, tasks[r], traces[r])
  }

  ghost predicate AllRegistered(g: Registry, tasks: Tasks, traces: Traces)
    requires tasks.Keys == traces.Keys
  {
    forall r :: r in tasks ==> Registered(g, r, tasks[r], traces[r])
  }

  ghost predicate AllLogged(log: Log, traces: Traces) {
    forall r :: r in traces ==> Logged(log, r, traces[r])
  }

  // The host workspaces in the registry's ledger are exactly those of the tasks.
  ghost predicate WorkspacesHeld(g: Registry, tasks: Tasks) {
    g.workspaces.Keys == tasks.Keys && forall r :: r in tasks ==> g.workspaces[r] == tasks[r].workspace
  }

  ghost predicate Scheduled(m: Machine, g: Registry, log: Log, tasks: Tasks, traces: Traces) {
    && AllFaithful(m, tasks, traces)
    && AllRegistered(g, tasks, traces)
    && AllLogged(log, traces)
    && WorkspacesHeld(g, tasks)
  }

  ghost predicate IndexedRequests(g: Registry) {
    forall r :: r in g.requestIndex ==> HasRequest(g, r)
  }

  lemma RegisteredOthers(g: Registry, g': Registry, tasks: Tasks, traces: Traces, r: RequestId)
    requires tasks.Keys == traces.Keys && AllRegistered(g, tasks, traces)
    requires OthersUndisturbed(g, g', r) && IndexedRequests(g')
    ensures AllRegistered(g', tasks - {r}, traces - {r})
  {
    hide Registered, Undisturbed, HasRequest;
    forall x | x in tasks - {r}
      ensures Registered(g', x, (tasks - {r})[x], (traces - {r})[x])
    {
      RegisteredKept(g, g', x, tasks[x], traces[x]);
    }
  }

  lemma LoggedOthers(log: Log, log': Log, traces: Traces, r: RequestId)
    requires AllLogged(log, traces) && OnlyFrom(log, log', r)
    ensures AllLogged(log', traces - {r})
  {
    hide Logged, OnlyFrom;
    forall x | x in traces - {r}
      ensures Logged(log', x, (traces - {r})[x])
    {
      LoggedApart(log, log', r, x, traces[x]);
    }
  }

  // After one task's step, without that task.
  lemma WithoutTask(m: Machine, r: RequestId, s: Moment, s': Moment, tasks: Tasks, traces: Traces)
    requires Scheduled(m, s.g, s.log, tasks, traces)
    requires Isolated(r, s, s') && IndexedRequests(s'.g)
    ensures AllFaithful(m, tasks - {r}, traces - {r})
    ensures AllRegistered(s'.g, tasks - {r}, traces - {r})
    ensures AllLogged(s'.log, traces - {r})
  {
    hide Registered, Logged, OthersUndisturbed, OnlyFrom, TaskFaithful, HasRequest;
    assert (tasks - {r}).Keys == tasks.Keys - {r} && (traces - {r}).Keys == traces.Keys - {r};
    RegisteredOthers(s.g, s'.g, tasks, traces, r);
    LoggedOthers(s.log, s'.log, traces, r);
  }

  // One task's step keeps the whole schedule.
  lemma WithTask(m: Machine, r: RequestId, s: Moment, s': Moment, tasks: Tasks, traces: Traces)
    requires Scheduled(m, s.g, s.log, tasks, traces)
    requires r in tasks && s.task == tasks[r]
    requires Isolated(r, s, s') && IndexedRequests(s'.g)
    requires TaskOk(m, r, s')
    ensures Scheduled(m, s'.g, s'.log, tasks[r := s'.task], traces[r := s'.trace])
  {
    hide Registered, Logged, OthersUndisturbed, OnlyFrom, TaskFaithful, HasRequest;
    WithoutTask(m, r, s, s', tasks, traces);
    var tasks', traces' := tasks[r := s'.task], traces[r := s'.trace];
    assert tasks'.Keys == tasks.Keys && traces'.Keys == traces.Keys;
    forall x | x in tasks'
      ensures TaskFaithful(m, tasks'[x], traces'[x]) && Registered(s'.g, x, tasks'[x], traces'[x]) && Logged(s'.log, x, traces'[x])
    {
      if x != r {
        assert x in tasks - {r} && x in traces - {r};
      }
    }
  }

  // A completed task leaves with its workspace.
  lemma TaskLeaves(m: Machine, r: RequestId, s: Moment, s': Moment, tasks: Tasks, traces: Traces, g': Registry)
    requires Scheduled(m, s.g, s.log, tasks, traces)
    requires r in tasks && Isolated(r, s, s') && IndexedRequests(s'.g)
    requires g' == s'.g.(workspaces := s'.g.workspaces - {r}, generationWorkspaces := g'.generationWorkspaces,
                         reservedWorkspace := g'.reservedWorkspace, reserved := g'.reserved)
    ensures Scheduled(m, g', s'.log, tasks - {r}, traces - {r})
  {
    hide Registered, Logged, OthersUndisturbed, OnlyFrom, TaskFaithful, HasRequest;
    WithoutTask(m, r, s, s', tasks, traces);
    WorkspaceFieldsOnly(s'.g, g', tasks - {r}, traces - {r});
  }

  lemma WorkspaceFieldsOnly(g: Registry, g': Registry, tasks: Tasks, traces: Traces)
    requires tasks.Keys == traces.Keys && AllRegistered(g, tasks, traces)
    requires g'.requestIndex == g.requestIndex && g'.pendingRequestIndex == g.pendingRequestIndex && g'.models == g.models
    requires g'.activeRequests == g.activeRequests
    ensures AllRegistered(g', tasks, traces)
  {
    forall r | r in tasks
      ensures Registered(g', r, tasks[r], traces[r])
    {
      assert Registered(g, r, tasks[r], traces[r]);
    }
  }

  // Anything the worker does besides scheduling, other than to request r.
  lemma ScheduleKept(m: Machine, g: Registry, g': Registry, log: Log, tasks: Tasks, traces: Traces, r: RequestId)
    requires Scheduled(m, g, log, tasks, traces)
    requires OthersUndisturbed(g, g', r) && r !in tasks && IndexedRequests(g')
    requires g'.workspaces == g.workspaces
    ensures Scheduled(m, g', log, tasks, traces)
  {
    hide Registered, Logged, OthersUndisturbed, TaskFaithful, HasRequest;
    RegisteredOthers(g, g', tasks, traces, r);
    assert tasks - {r} == tasks && traces - {r} == traces;
  }
}
