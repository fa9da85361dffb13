// The corrective workflow executor (workflow/executor.rs): whatever its model and
// validation ports answer, admission rules out every error but three.
module Workflow {
  import opened Common
  import opened TaskGraph
  import opened TaskStates
  import opened ArtifactFlow
  import opened WorkflowArtifacts
  import opened WorkflowPlan

  datatype TaskKind = DraftTask | ReviewTask | CompileCheck | Validate | NormalizeTask | ReviseTask | Aggregate | OtherTask(code: nat)

  datatype ModelPolicy = Exact(model: nat) | PreferredBackend(backend: nat) | AnyCompatible | Deterministic

  datatype TaskBudget = TaskBudget(maximumInput: u32, maximumOutput: u32, maximumAttempts: AttemptLimit)

  datatype ArtifactLimits = ArtifactLimits(draft: nat, rawValidation: nat, normalized: nat, review: nat, revision: nat, finalValidation: nat)

  datatype Configuration = Configuration(
    initialValidation: TaskKind,
    modelPolicy: ModelPolicy,
    modelBudget: TaskBudget,
    validationBudget: TaskBudget,
    limits: ArtifactLimits
  )

  datatype ConfigurationError =
    | InvalidInitialValidation(kind: TaskKind)
    | DeterministicModelPolicy
    | ZeroMaximumInputTokens(model: bool)
    | ZeroMaximumOutputTokens(model: bool)
    | ZeroArtifactLimit(role: ArtifactRole)

  datatype IdentifierKind = WorkflowIdentifier | TaskIdentifier | ArtifactIdentifier

  datatype Stage = Draft | InitialValidation | Normalization | Review | Revise | FinalCheck

  datatype WorkflowStatus = Accepted | Refused

  datatype Event =
    | StageStarted(workflow: nat, stage: Stage, attempt: TaskAttempt)
    | ArtifactCommitted(workflow: nat, stage: Stage, attempt: TaskAttempt, artifact: Reference)
    | RetryScheduled(workflow: nat, stage: Stage, failed: TaskAttempt, next: TaskAttempt)
    | Completed(workflow: nat, status: WorkflowStatus, revision: ArtifactId, validation: ArtifactId)

  datatype WorkflowError =
    | InvalidConfiguration(cause: ConfigurationError)
    | UnknownSpecification(artifact: ArtifactId)
    | InvalidSpecification(reference: Reference)
    | IdentifierExhausted(kind: IdentifierKind)
    | StoreFailure(store: StoreError)
    | SpecificationCapacityExceeded(required: nat, maximum: nat)
    | EventCapacityExceeded(required: nat, available: nat)
    | GraphFailure(graph: TaskGraphError)
    | FlowFailure(flow: FlowError)
    | ArtifactSizeOverflow(workflow: nat, stage: Stage, task: TaskId, artifact: ArtifactId)
    | OutputCapacityExceeded(workflow: nat, stage: Stage, task: TaskId, artifact: ArtifactId, required: nat, maximum: nat)
    | TaskExhausted(workflow: nat, stage: Stage, task: TaskId, attempts: nat, diagnostic: Text)
    | InvalidCommittedArtifact(artifact: ArtifactId)

  datatype WorkflowOutcome = WorkflowOutcome(status: WorkflowStatus, workflow: nat, revision: ArtifactId, validation: ArtifactId)

  type Outcome<T> = Result<T, WorkflowError>

  function OfStore(r: Result<(), StoreError>): Outcome<()> {
    match r
    case Ok(_) => Ok(())
    case Err(error) => Err(StoreFailure(error))
  }

  function OfGraph<T>(r: Result<T, TaskGraphError>): Outcome<()> {
    match r
    case Ok(_) => Ok(())
    case Err(error) => Err(GraphFailure(error))
  }

  function OfFlow(r: Result<(), FlowError>): Outcome<()> {
    match r
    case Ok(_) => Ok(())
    case Err(error) => Err(FlowFailure(error))
  }

  // CorrectiveWorkflowConfiguration::validate.
  function CheckConfiguration(c: Configuration): Outcome<()> {
    if !c.initialValidation.CompileCheck? && !c.initialValidation.Validate? then
      Err(InvalidConfiguration(InvalidInitialValidation(c.initialValidation)))
    else if c.modelPolicy.Deterministic? then Err(InvalidConfiguration(DeterministicModelPolicy))
    else if c.modelBudget.maximumInput == 0 then Err(InvalidConfiguration(ZeroMaximumInputTokens(true)))
    else if c.modelBudget.maximumOutput == 0 then Err(InvalidConfiguration(ZeroMaximumOutputTokens(true)))
    else if c.validationBudget.maximumInput == 0 then Err(InvalidConfiguration(ZeroMaximumInputTokens(false)))
    else if c.validationBudget.maximumOutput == 0 then Err(InvalidConfiguration(ZeroMaximumOutputTokens(false)))
    else if c.limits.draft == 0 then Err(InvalidConfiguration(ZeroArtifactLimit(DraftRole)))
    else if c.limits.rawValidation == 0 then Err(InvalidConfiguration(ZeroArtifactLimit(RawDiagnosticsRole)))
    else if c.limits.normalized == 0 then Err(InvalidConfiguration(ZeroArtifactLimit(NormalizedDiagnosticsRole)))
    else if c.limits.review == 0 then Err(InvalidConfiguration(ZeroArtifactLimit(ReviewRole)))
    else if c.limits.revision == 0 then Err(InvalidConfiguration(ZeroArtifactLimit(RevisionRole)))
    else if c.limits.finalValidation == 0 then Err(InvalidConfiguration(ZeroArtifactLimit(FinalValidationRole)))
    else Ok(())
  }

  // What can be wrong with a configuration: a kind or policy that cannot run, or a zero.
  ghost predicate Faulty(c: Configuration, cause: ConfigurationError) {
    match cause
    case InvalidInitialValidation(kind) => kind == c.initialValidation && kind != CompileCheck && kind != Validate
    case DeterministicModelPolicy => c.modelPolicy == Deterministic
    case ZeroMaximumInputTokens(model) => (if model then c.modelBudget else c.validationBudget).maximumInput == 0
    case ZeroMaximumOutputTokens(model) => (if model then c.modelBudget else c.validationBudget).maximumOutput == 0
    case ZeroArtifactLimit(role) =>
      (match role
       case DraftRole => c.limits.draft == 0
       case RawDiagnosticsRole => c.limits.rawValidation == 0
       case NormalizedDiagnosticsRole => c.limits.normalized == 0
       case ReviewRole => c.limits.review == 0
       case RevisionRole => c.limits.revision == 0
       case FinalValidationRole => c.limits.finalValidation == 0
       case _ => false)
  }

  // A configuration is accepted exactly without a fault, and refused for a real one.
  lemma ConfigurationChecked(c: Configuration)
    ensures CheckConfiguration(c).Ok? <==> forall cause :: !Faulty(c, cause)
    ensures CheckConfiguration(c).Err? ==> CheckConfiguration(c).error.InvalidConfiguration? && Faulty(c, CheckConfiguration(c).error.cause)
  {
    if CheckConfiguration(c).Ok? {
      forall cause
        ensures !Faulty(c, cause)
      {
      }
    } else {
      assert Faulty(c, CheckConfiguration(c).error.cause);
    }
  }

  function StageAt(k: nat): Stage {
    if k == 0 then Draft else if k == 1 then InitialValidation else if k == 2 then Normalization
    else if k == 3 then Review else if k == 4 then Revise else FinalCheck
  }

  // The stage that produces each role.
  ghost predicate Produces(stage: Stage, role: ArtifactRole) {
    match role
    case DraftRole => stage == Draft
    case RawDiagnosticsRole => stage == InitialValidation
    case NormalizedDiagnosticsRole => stage == Normalization
    case ReviewRole => stage == Review
    case RevisionRole => stage == Revise
    case FinalValidationRole => stage == FinalCheck
    case _ => false
  }

  // Every event and error of a stage names the stage that produces its output.
  lemma StagesNamed(plan: Plan, k: nat)
    requires k < TASK_COUNT
    ensures Produces(StageAt(k), OutputAt(plan, k).role)
  {
  }

  function LimitAt(limits: ArtifactLimits, k: nat): nat {
    if k == 0 then limits.draft else if k == 1 then limits.rawValidation else if k == 2 then limits.normalized
    else if k == 3 then limits.review else if k == 4 then limits.revision else limits.finalValidation
  }

  // required_event_capacity, in exact arithmetic: two events per possible attempt of
  // the three model and two validation tasks, two for normalization, one at the end.
  function RequiredEvents(c: Configuration): nat {
    2 * 3 * c.modelBudget.maximumAttempts + 2 * 2 * c.validationBudget.maximumAttempts + 2 + 1
  }

  // ----- Where a running workflow is -----

  // Before attempt n + 1 of stage k: earlier tasks succeeded, later ones are untouched.
  ghost predicate AtStage(plan: Plan, states: States, k: nat, n: nat) {
    && k <= TASK_COUNT && |states| == TASK_COUNT
    && (forall i :: 0 <= i < k ==> states[i].status.Succeeded?)
    && (k < TASK_COUNT ==> n < AttemptsAt(plan, k) && states[k] == TaskState(if n == 0 then Pending else Failed, n))
    && (forall i :: k < i < TASK_COUNT ==> states[i] == TaskState(Pending, 0))
  }

  // Events the rest of the workflow may still enqueue.
  function Needed(plan: Plan, k: nat, n: nat): int
    decreases TASK_COUNT - k
  {
    if k >= TASK_COUNT then 1 else 2 * (AttemptsAt(plan, k) - n) + Needed(plan, k + 1, 0)
  }

  // Everything committed before is still there unchanged, followed by exactly the
  // outputs of the first k stages.
  ghost predicate Committed(plan: Plan, base: Artifacts, now: Artifacts, k: nat) {
    && (forall id :: id in base ==> id in now && now[id] == base[id])
    && (forall j :: 0 <= j < k && j < TASK_COUNT ==> OutputAt(plan, j).id in now && now[OutputAt(plan, j).id].reference == OutputAt(plan, j))
    && (forall j :: k <= j < TASK_COUNT ==> OutputAt(plan, j).id !in now)
    && |now| == |base| + k
  }

  lemma NeededFromStart(plan: Plan, c: Configuration)
    requires plan.budgets == Budgets(c.modelBudget.maximumAttempts, c.validationBudget.maximumAttempts)
    ensures Needed(plan, 0, 0) == RequiredEvents(c) == LongestStream(plan)
  {
    hide Retries, Started;
    assert Needed(plan, 6, 0) == 1;
    assert Needed(plan, 5, 0) == 2 * plan.budgets.validationAttempts + 1;
    assert Needed(plan, 4, 0) == 2 * plan.budgets.modelAttempts + Needed(plan, 5, 0);
    assert Needed(plan, 3, 0) == 2 * plan.budgets.modelAttempts + Needed(plan, 4, 0);
    assert Needed(plan, 2, 0) == 2 + Needed(plan, 3, 0);
    assert Needed(plan, 1, 0) == 2 * plan.budgets.validationAttempts + Needed(plan, 2, 0);
    assert Needed(plan, 0, 0) == 2 * plan.budgets.modelAttempts + Needed(plan, 1, 0);
    StreamLength(plan, TASK_COUNT);
  }

  // The most failures a run can survive: all but the last attempt of every task.
  ghost function MostFailures(plan: Plan, n: nat): seq<nat> {
    seq(n, k requires 0 <= k < n => AttemptsAt(plan, k) - 1)
  }

  // Everything such a run announces, its completion included.
  ghost function LongestStream(plan: Plan): nat {
    |RunEvents(plan, MostFailures(plan, TASK_COUNT))| + 1
  }

  lemma {:induction false} StreamLength(plan: Plan, n: nat)
    requires n <= TASK_COUNT
    ensures |RunEvents(plan, MostFailures(plan, n))| + Needed(plan, n, 0) == Needed(plan, 0, 0)
  {
    hide Retries, Started, AttemptsAt;
    if n > 0 {
      StreamLength(plan, n - 1);
      assert MostFailures(plan, n)[..n - 1] == MostFailures(plan, n - 1);
      RetriesLength(plan, n - 1, AttemptsAt(plan, n - 1) - 1);
    }
  }

  lemma {:induction false} RetriesLength(plan: Plan, k: nat, n: nat)
    ensures |Retries(plan, k, n)| == 2 * n
  {
    if n > 0 {
      RetriesLength(plan, k, n - 1);
    }
  }

  lemma {:induction false} NeededPositive(plan: Plan, k: nat)
    ensures Needed(plan, k, 0) >= 1
    decreases TASK_COUNT - k
  {
    if k < TASK_COUNT {
      NeededPositive(plan, k + 1);
    }
  }

  lemma StageReady(plan: Plan, states: States, k: nat, n: nat)
    requires AtStage(plan, states, k, n) && k < TASK_COUNT
    ensures Aligned(CanonicalGraph(plan), states) && AllSucceeded(CanonicalGraph(plan), states, TaskAt(plan, k))
  {
    hide IndexOf, Edges, Structured;
    GraphStructured(plan);
    forall e | e in Edges(plan) && e.dependent == TaskAt(plan, k)
      ensures Known(Nodes(plan), e.prerequisite) && StatusOf(CanonicalGraph(plan), states, e.prerequisite) == Succeeded
    {
      EdgesGoForward(plan, e);
      var from: nat, to: nat :| from < to < TASK_COUNT && e == Edge(plan, from, to);
      NodeAt(plan, from);
    }
  }

  // The next attempt always starts ...
  lemma StageStarts(plan: Plan, states: States, k: nat, n: nat)
    requires AtStage(plan, states, k, n) && k < TASK_COUNT
    ensures StartTask(CanonicalGraph(plan), states, TaskAt(plan, k))
            == Step(states[k := TaskState(Running, n + 1)], Ok(TaskAttempt(TaskAt(plan, k), n + 1)))
  {
    hide IndexOf, Edges, Structured, AllSucceeded;
    StageReady(plan, states, k, n);
    NodeAt(plan, k);
    AllSucceededMeans(CanonicalGraph(plan), states, TaskAt(plan, k), SucceededVerdict(Nodes(plan), states, TaskAt(plan, k), Edges(plan)));
  }

  // ... its completion is always accepted ...
  lemma StageSucceeds(plan: Plan, states: States, k: nat, n: nat)
    requires AtStage(plan, states, k, n) && k < TASK_COUNT
    ensures var done := SucceedTask(CanonicalGraph(plan), states[k := TaskState(Running, n + 1)], TaskAttempt(TaskAt(plan, k), n + 1));
            done.result == Ok(()) && AtStage(plan, done.states, k + 1, 0)
  {
    hide IndexOf, Edges;
    NodeAt(plan, k);
  }

  // ... and so is its failure, which leaves another attempt exactly while the budget does.
  lemma StageFails(plan: Plan, states: States, k: nat, n: nat)
    requires AtStage(plan, states, k, n) && k < TASK_COUNT
    ensures var failed := FailTask(CanonicalGraph(plan), states[k := TaskState(Running, n + 1)], TaskAttempt(TaskAt(plan, k), n + 1));
            failed.result == Ok(()) && (n + 1 < AttemptsAt(plan, k) ==> AtStage(plan, failed.states, k, n + 1))
  {
    hide IndexOf, Edges;
    NodeAt(plan, k);
  }

  // The only errors that attempt n + 1 of stage k can end an admitted workflow with: the
  // budget is spent, or the output is too large for its limit or for a u64 size.
  predicate AttemptError(plan: Plan, limits: ArtifactLimits, k: nat, n: nat, error: WorkflowError) {
    match error
    case TaskExhausted(workflow, stage, task, attempts, _) =>
      workflow == plan.workflow && stage == StageAt(k) && task == TaskAt(plan, k) && attempts == n + 1 == AttemptsAt(plan, k)
    case OutputCapacityExceeded(workflow, stage, task, artifact, required, maximum) =>
      workflow == plan.workflow && stage == StageAt(k) && task == TaskAt(plan, k) && artifact == OutputAt(plan, k).id
      && required > maximum == LimitAt(limits, k)
    case ArtifactSizeOverflow(workflow, stage, task, artifact) =>
      workflow == plan.workflow && stage == StageAt(k) && task == TaskAt(plan, k) && artifact == OutputAt(plan, k).id
    case _ => false
  }

  // ----- What a run announces -----

  function AttemptAt(plan: Plan, k: nat, n: nat): TaskAttempt {
    TaskAttempt(TaskAt(plan, k), n + 1)
  }

  function Started(plan: Plan, k: nat, n: nat): Event {
    StageStarted(plan.workflow, StageAt(k), AttemptAt(plan, k, n))
  }

  // n failed attempts of stage k, each followed by the announcement of the next.
  function Retries(plan: Plan, k: nat, n: nat): seq<Event> {
    if n == 0 then []
    else Retries(plan, k, n - 1) + [Started(plan, k, n - 1), RetryScheduled(plan.workflow, StageAt(k), AttemptAt(plan, k, n - 1), AttemptAt(plan, k, n))]
  }

  // A stage that committed its output after n failures.
  function StageEvents(plan: Plan, k: nat, n: nat): seq<Event> {
    Retries(plan, k, n) + [Started(plan, k, n), ArtifactCommitted(plan.workflow, StageAt(k), AttemptAt(plan, k, n), OutputAt(plan, k))]
  }

  // The stages that committed, in order, given how often each of them failed first.
  function RunEvents(plan: Plan, failures: seq<nat>): seq<Event> {
    if failures == [] then []
    else RunEvents(plan, failures[..|failures| - 1]) + StageEvents(plan, |failures| - 1, failures[|failures| - 1])
  }

  // A run that ended with an error: some stages committed, the next one did not.
  ghost predicate StoppedAt(plan: Plan, limits: ArtifactLimits, failures: seq<nat>, before: seq<Event>, after: seq<Event>, error: WorkflowError) {
    && 0 < |failures| <= TASK_COUNT
    && var k, n := |failures| - 1, failures[|failures| - 1];
       && after == before + RunEvents(plan, failures[..k]) + Retries(plan, k, n) + [Started(plan, k, n)]
       && AttemptError(plan, limits, k, n, error)
  }

  // ----- What the ports are asked and answer -----

  // One call of a port: all its request carries, and what came back.
  datatype Call =
    | ModelCall(workflow: nat, attempt: TaskAttempt, kind: TaskKind, policy: ModelPolicy, budget: TaskBudget, inputs: seq<ArtifactId>,
                text: Result<Text, Text>)
    | ValidationCall(workflow: nat, attempt: TaskAttempt, kind: TaskKind, budget: TaskBudget, inputs: seq<ArtifactId>, report: Result<Report, Text>)

  predicate Failing(call: Call) {
    match call
    case ModelCall(_, _, _, _, _, _, text) => text.Err?
    case ValidationCall(_, _, _, _, _, report) => report.Err?
  }

  function DiagnosticOf(call: Call): Text
    requires Failing(call)
  {
    match call
    case ModelCall(_, _, _, _, _, _, text) => text.error
    case ValidationCall(_, _, _, _, _, report) => report.error
  }

  // Attempt i + 1 of stage k asks the stage's own port, under the configured budget and
  // policy, and gives it exactly the artifacts the canonical flow declares for the task.
  ghost predicate Asked(plan: Plan, c: Configuration, k: nat, i: nat, call: Call) {
    && call.workflow == plan.workflow
    && call.attempt == TaskAttempt(TaskAt(plan, k), i + 1)
    && Declared(CanonicalFlow(plan), TaskAt(plan, k), call.inputs)
    && (match call
        case ModelCall(_, _, kind, policy, budget, _, _) =>
          policy == c.modelPolicy && budget == c.modelBudget
          && ((k == 0 && kind == DraftTask) || (k == 3 && kind == ReviewTask) || (k == 4 && kind == ReviseTask))
        case ValidationCall(_, _, kind, budget, _, _) =>
          budget == c.validationBudget && ((k == 1 && kind == c.initialValidation) || (k == 5 && kind == Validate)))
  }

  // Stage k was asked again after each of its first n calls failed.
  ghost predicate StageCalls(plan: Plan, c: Configuration, k: nat, n: nat, made: seq<Call>) {
    && |made| == n + 1
    && (forall i :: 0 <= i <= n ==> Asked(plan, c, k, i, made[i]))
    && (forall i :: 0 <= i < n ==> Failing(made[i]))
  }

  ghost predicate FailedCalls(plan: Plan, c: Configuration, k: nat, n: nat, made: seq<Call>) {
    |made| == n && forall i :: 0 <= i < n ==> Asked(plan, c, k, i, made[i]) && Failing(made[i])
  }

  // The payload a stage commits is its port's whole answer.
  predicate Delivers(k: nat, call: Call, content: Content) {
    match content
    case DraftText(text) => k == 0 && call.ModelCall? && call.text == Ok(text)
    case RawValidation(report) => k == 1 && call.ValidationCall? && call.report == Ok(report)
    case ReviewText(text) => k == 3 && call.ModelCall? && call.text == Ok(text)
    case RevisionText(text) => k == 4 && call.ModelCall? && call.text == Ok(text)
    case FinalValidation(report) => k == 5 && call.ValidationCall? && call.report == Ok(report)
    case _ => false
  }

  // The configured limit of a payload.
  function LimitOf(limits: ArtifactLimits, content: Content): nat {
    match content
    case SpecificationText(_) => 0
    case DraftText(_) => limits.draft
    case RawValidation(_) => limits.rawValidation
    case NormalizedDiagnostics(_) => limits.normalized
    case ReviewText(_) => limits.review
    case RevisionText(_) => limits.revision
    case FinalValidation(_) => limits.finalValidation
  }

  // A payload is committed unless its exact size fits no u64 or exceeds its limit.
  function SizeVerdict(plan: Plan, limits: ArtifactLimits, k: nat, content: Content): Outcome<()> {
    if ContentBytes(content) > U64_MAX then Err(ArtifactSizeOverflow(plan.workflow, StageAt(k), TaskAt(plan, k), OutputAt(plan, k).id))
    else if ContentBytes(content) > LimitOf(limits, content) then
      Err(OutputCapacityExceeded(plan.workflow, StageAt(k), TaskAt(plan, k), OutputAt(plan, k).id, ContentBytes(content), LimitOf(limits, content)))
    else Ok(())
  }

  // How a stage ends with its last call: a failure ends it only on its last attempt and
  // is named in the error; an answer is committed whole unless it is too large.
  ghost predicate Concluded(plan: Plan, limits: ArtifactLimits, k: nat, n: nat, call: Call, artifacts: Artifacts, r: Outcome<()>) {
    if Failing(call) then
      && n + 1 == call.budget.maximumAttempts
      && r == Err(TaskExhausted(plan.workflow, StageAt(k), call.attempt.task, n + 1, DiagnosticOf(call)))
    else
      exists content ::
        && Delivers(k, call, content)
        && r == SizeVerdict(plan, limits, k, content)
        && (r.Ok? ==> Stores(plan, k, artifacts, content))
  }

  predicate Stores(plan: Plan, k: nat, artifacts: Artifacts, content: Content) {
    OutputAt(plan, k).id in artifacts && artifacts[OutputAt(plan, k).id] == Artifact(OutputAt(plan, k), content)
  }

  // Normalization asks nobody: its payload is the stored raw report, normalized.
  predicate NormalConcluded(plan: Plan, limits: ArtifactLimits, artifacts: Artifacts, normalize: seq<Finding> -> seq<Finding>, r: Outcome<()>) {
    && OutputAt(plan, 1).id in artifacts
    && artifacts[OutputAt(plan, 1).id].content.RawValidation?
    && var raw := artifacts[OutputAt(plan, 1).id].content.report;
       r == SizeVerdict(plan, limits, 2, NormalizedDiagnostics(Report(raw.verdict, normalize(raw.diagnostics))))
  }

  function Flat(stages: seq<seq<Call>>): seq<Call> {
    if stages == [] then [] else Flat(stages[..|stages| - 1]) + stages[|stages| - 1]
  }

  // The calls of a run, stage by stage.
  ghost predicate RunCalls(plan: Plan, c: Configuration, failures: seq<nat>, stages: seq<seq<Call>>, before: seq<Call>, after: seq<Call>) {
    && |stages| == |failures|
    && after == before + Flat(stages)
    && (forall k :: 0 <= k < |stages| ==> if k == 2 then stages[k] == [] else StageCalls(plan, c, k, failures[k], stages[k]))
  }

  // The first m stages committed what their ports answered last.
  ghost predicate Delivered(plan: Plan, stages: seq<seq<Call>>, m: nat, artifacts: Artifacts) {
    forall k :: 0 <= k < m && k < |stages| && k != 2 ==> StageDelivered(plan, k, stages[k], artifacts)
  }

  ghost predicate StageDelivered(plan: Plan, k: nat, made: seq<Call>, artifacts: Artifacts) {
    made != [] && exists content :: Delivers(k, made[|made| - 1], content) && Stores(plan, k, artifacts, content)
  }

  // A run that ended with an error: its last stage says why.
  ghost predicate RunConcluded(plan: Plan, limits: ArtifactLimits, failures: seq<nat>, stages: seq<seq<Call>>, artifacts: Artifacts,
                               normalize: seq<Finding> -> seq<Finding>, r: Outcome<()>) {
    && |stages| == |failures| > 0
    && var k, made := |stages| - 1, stages[|stages| - 1];
       if k == 2 then NormalConcluded(plan, limits, artifacts, normalize, r)
       else made != [] && Concluded(plan, limits, k, failures[k], made[|made| - 1], artifacts, r)
  }

  // What a run leaves behind at some point.
  datatype Snapshot = Snapshot(events: seq<Event>, calls: seq<Call>, artifacts: Artifacts)

  // The first stages of a run committed, each with its calls and announcements.
  ghost predicate Ran(plan: Plan, c: Configuration, normalize: seq<Finding> -> seq<Finding>, start: Snapshot, now: Snapshot,
                      failures: seq<nat>, stages: seq<seq<Call>>) {
    && |failures| == |stages| && WithinBudgets(plan, failures)
    && now.events == start.events + RunEvents(plan, failures)
    && RunCalls(plan, c, failures, stages, start.calls, now.calls)
    && Delivered(plan, stages, |stages|, now.artifacts)
    && (|stages| > 2 ==> Normalized(plan, now.artifacts, normalize))
  }

  // All stages but the last committed, and the last one ended the workflow.
  ghost predicate Stopped(plan: Plan, c: Configuration, normalize: seq<Finding> -> seq<Finding>, start: Snapshot, now: Snapshot,
                          failures: seq<nat>, stages: seq<seq<Call>>, r: Outcome<()>) {
    && |failures| == |stages| > 0 && WithinBudgets(plan, failures)
    && r.Err? && StoppedAt(plan, c.limits, failures, start.events, now.events, r.error)
    && RunCalls(plan, c, failures, stages, start.calls, now.calls)
    && Delivered(plan, stages, |stages| - 1, now.artifacts)
    && (|stages| > 3 ==> Normalized(plan, now.artifacts, normalize))
    && RunConcluded(plan, c.limits, failures, stages, now.artifacts, normalize, r)
  }

  // No stage fails more often than its budget lets it.
  predicate WithinBudgets(plan: Plan, failures: seq<nat>) {
    |failures| <= TASK_COUNT && forall k :: 0 <= k < |failures| ==> failures[k] < AttemptsAt(plan, k)
  }

  lemma OneMoreCommitted(plan: Plan, base: Artifacts, now: Artifacts, k: nat, artifact: Artifact)
    requires Committed(plan, base, now, k) && k < TASK_COUNT && artifact.reference == OutputAt(plan, k)
    requires |now[artifact.reference.id := artifact]| == |now| + 1
    ensures Committed(plan, base, now[artifact.reference.id := artifact], k + 1)
  {
  }

  // ----- The executor -----

  class WorkflowExecutor {
    const store: ArtifactStore
    const normalize: seq<Finding> -> seq<Finding>
    const maximumEvents: nat
    const maximumSpecificationBytes: nat
    var events: seq<Event>
    ghost var calls: seq<Call>
    var nextWorkflow: nat
    var nextTask: nat
    var nextArtifact: nat

    // No committed artifact carries an id that is still to be given out.
    ghost predicate Valid()
      reads this, store
    {
      && store.Valid()
      && |events| <= maximumEvents
      && nextWorkflow <= U64_MAX && nextTask <= U64_MAX && nextArtifact <= U64_MAX
      && (forall id :: id in store.artifacts ==> id < nextArtifact)
    }

    ghost function Now(): Snapshot
      reads this, store
    {
      Snapshot(events, calls, store.artifacts)
    }

    constructor (normalize: seq<Finding> -> seq<Finding>, maximumArtifacts: nat, maximumEvents: nat, maximumSpecificationBytes: nat)
      ensures Valid() && fresh(store) && store.artifacts == map[] && events == [] && calls == []
    {
      this.normalize := normalize;
      this.maximumEvents := maximumEvents;
      this.maximumSpecificationBytes := maximumSpecificationBytes;
      store := new ArtifactStore(maximumArtifacts);
      events, calls := [], [];
      nextWorkflow, nextTask, nextArtifact := 1, 1, 1;
    }

    function RemainingEvents(): nat
      reads this
    {
      SaturatingSub(maximumEvents, |events|)
    }

    method EnsureEventCapacity() returns (r: Outcome<()>)
      ensures r == if |events| < maximumEvents then Ok(()) else Err(EventCapacityExceeded(1, 0))
    {
      var available := RemainingEvents();
      if available == 0 {
        return Err(EventCapacityExceeded(1, available));
      }
      return Ok(());
    }

    method EnqueueEvent(event: Event) returns (r: Outcome<()>)
      modifies `events
      ensures |old(events)| < maximumEvents ==> r == Ok(()) && events == old(events) + [event]
      ensures |old(events)| >= maximumEvents ==> r == Err(EventCapacityExceeded(1, 0)) && events == old(events)
    {
      var _ :- EnsureEventCapacity();
      events := events + [event];
      return Ok(());
    }

    // Before attempt n + 1 of stage k, with room for everything that may still happen.
    ghost predicate Running(plan: Plan, base: Artifacts, table: TaskStateTable, k: nat, n: nat)
      reads this, store, table.states
    {
      && Valid()
      && AtStage(plan, table.states[..], k, n)
      && |events| + Needed(plan, k, n) <= maximumEvents
      && Committed(plan, base, store.artifacts, k)
      && plan.firstOutput + TASK_COUNT <= nextArtifact
    }

    // The attempt of stage k is running.
    ghost predicate Attempting(plan: Plan, base: Artifacts, table: TaskStateTable, before: States, k: nat, n: nat)
      reads this, store, table.states
    {
      && Valid()
      && k < TASK_COUNT
      && AtStage(plan, before, k, n)
      && table.states[..] == before[k := TaskState(TaskStatus.Running, n + 1)]
      && |events| + Needed(plan, k, n) - 1 <= maximumEvents
      && Committed(plan, base, store.artifacts, k)
      && plan.firstOutput + TASK_COUNT <= nextArtifact
    }

    // The start of every attempt.
    method BeginAttempt(plan: Plan, table: TaskStateTable, k: nat, ghost base: Artifacts, ghost n: nat)
      returns (attempt: TaskAttempt, r: Outcome<()>)
      requires Running(plan, base, table, k, n) && k < TASK_COUNT
      modifies `events, table.states
      ensures r == Ok(()) && attempt == TaskAttempt(TaskAt(plan, k), n + 1)
      ensures Attempting(plan, base, table, old(table.states[..]), k, n)
      ensures events == old(events) + [Started(plan, k, n)]
    {
      hide Committed, StartTask, WellTyped;
      NeededPositive(plan, k + 1);
      attempt := TaskAttempt(0, 0);
      r := EnsureEventCapacity();
      if r.Err? {
        return;
      }
      StageStarts(plan, table.states[..], k, n);
      var started := table.Start(CanonicalGraph(plan), TaskAt(plan, k));
      r := OfGraph(started);
      if r.Err? {
        return;
      }
      attempt := started.value;
      r := EnqueueEvent(StageStarted(plan.workflow, StageAt(k), attempt));
    }

    // commit_output's size check.
    method CheckSize(plan: Plan, k: nat, attempt: TaskAttempt, content: Content, limits: ArtifactLimits) returns (r: Outcome<()>)
      requires k < TASK_COUNT && attempt.task == TaskAt(plan, k) && ContentMatches(OutputAt(plan, k), content)
      ensures r == SizeVerdict(plan, limits, k, content)
    {
      hide ContentBytes;
      var reference := OutputAt(plan, k);
      var size := ContentSize(content);
      if size.None? {
        return Err(ArtifactSizeOverflow(plan.workflow, StageAt(k), attempt.task, reference.id));
      }
      var maximumBytes := LimitAt(limits, k);
      if size.value > maximumBytes {
        return Err(OutputCapacityExceeded(plan.workflow, StageAt(k), attempt.task, reference.id, size.value, maximumBytes));
      }
      return Ok(());
    }

    // The committing half of commit_output.
    method Commit(plan: Plan, k: nat, attempt: TaskAttempt, content: Content, ghost base: Artifacts) returns (r: Outcome<()>)
      requires Valid() && |events| < maximumEvents && k < TASK_COUNT
      requires Committed(plan, base, store.artifacts, k) && ContentMatches(OutputAt(plan, k), content)
      requires |base| + TASK_COUNT <= store.maximum && plan.firstOutput + TASK_COUNT <= nextArtifact
      modifies `events, store
      ensures r == Ok(()) && Valid()
      ensures events == old(events) + [ArtifactCommitted(plan.workflow, StageAt(k), attempt, OutputAt(plan, k))]
      ensures store.artifacts == old(store.artifacts)[OutputAt(plan, k).id := Artifact(OutputAt(plan, k), content)]
      ensures Committed(plan, base, store.artifacts, k + 1)
    {
      hide WellTyped, ContentMatches;
      var reference := OutputAt(plan, k);
      r := EnsureEventCapacity();
      if r.Err? {
        return;
      }
      ghost var artifacts := store.artifacts;
      var inserted := store.Insert(Artifact(reference, content));
      r := OfStore(inserted);
      if r.Err? {
        return;
      }
      OneMoreCommitted(plan, base, artifacts, k, Artifact(reference, content));
      r := EnqueueEvent(ArtifactCommitted(plan.workflow, StageAt(k), attempt, reference));
    }

    // A produced output: checked, committed, and only then counted as the task's success.
    method CommitOutput(plan: Plan, table: TaskStateTable, k: nat, attempt: TaskAttempt, content: Content, limits: ArtifactLimits,
                        ghost base: Artifacts, ghost before: States, ghost n: nat)
      returns (r: Outcome<()>)
      requires Attempting(plan, base, table, before, k, n) && attempt == TaskAttempt(TaskAt(plan, k), n + 1)
      requires ContentMatches(OutputAt(plan, k), content)
      requires |base| + TASK_COUNT <= store.maximum
      modifies `events, table.states, store
      ensures r == SizeVerdict(plan, limits, k, content)
      ensures r.Ok? ==> Running(plan, base, table, k + 1, 0)
      ensures r.Ok? ==> store.artifacts == old(store.artifacts)[OutputAt(plan, k).id := Artifact(OutputAt(plan, k), content)]
      ensures r.Ok? ==> events == old(events) + [ArtifactCommitted(plan.workflow, StageAt(k), attempt, OutputAt(plan, k))]
      ensures r.Err? ==> AttemptError(plan, limits, k, n, r.error) && !r.error.TaskExhausted?
      ensures r.Err? ==> store.artifacts == old(store.artifacts) && events == old(events) && Valid()
    {
      hide AtStage, WellTyped, SucceedTask, Committed, ContentMatches, SizeVerdict, AttemptError;
      NeededPositive(plan, k + 1);
      StageFits(plan, before, k, n);
      SizeErrors(plan, limits, k, n, content);
      r := CheckSize(plan, k, attempt, content, limits);
      if r.Err? {
        return;
      }
      NothingElse(r);
      r := Commit(plan, k, attempt, content, base);
      if r.Err? {
        return;
      }
      StageSucceeds(plan, before, k, n);
      var succeeded := table.SucceedAttempt(CanonicalGraph(plan), attempt);
      r := OfGraph(succeeded);
    }

    // handle_operational_failure.
    method HandleFailure(plan: Plan, table: TaskStateTable, k: nat, attempt: TaskAttempt, diagnostic: Text,
                         ghost base: Artifacts, ghost before: States, ghost n: nat)
      returns (r: Outcome<()>)
      requires Attempting(plan, base, table, before, k, n) && attempt == TaskAttempt(TaskAt(plan, k), n + 1)
      modifies `events, table.states
      ensures r.Ok? <==> n + 1 < AttemptsAt(plan, k)
      ensures r.Ok? ==> Running(plan, base, table, k, n + 1)
      ensures r.Ok? ==> events == old(events) + [RetryScheduled(plan.workflow, StageAt(k), attempt, AttemptAt(plan, k, n + 1))]
      ensures r.Err? ==> r.error == TaskExhausted(plan.workflow, StageAt(k), TaskAt(plan, k), n + 1, diagnostic) && events == old(events) && Valid()
    {
      hide Committed, WellTyped, FailTask, AtStage;
      NeededPositive(plan, k + 1);
      StageFits(plan, before, k, n);
      StageFails(plan, before, k, n);
      var failed := table.FailAttempt(CanonicalGraph(plan), attempt);
      r := OfGraph(failed);
      if r.Err? {
        return;
      }
      if attempt.number < AttemptsAt(plan, k) {
        var next := attempt.number + 1;
        r := EnqueueEvent(RetryScheduled(plan.workflow, StageAt(k), attempt, TaskAttempt(attempt.task, next)));
      } else {
        r := Err(TaskExhausted(plan.workflow, StageAt(k), attempt.task, attempt.number, diagnostic));
      }
    }

    // ----- The ports: anything may come back -----

    // Only committed artifacts are ever declared as inputs.
    method CallModel(workflow: nat, attempt: TaskAttempt, kind: TaskKind, policy: ModelPolicy, budget: TaskBudget, inputs: seq<ArtifactId>)
      returns (r: Result<Text, Text>)
      requires Valid() && forall i :: 0 <= i < |inputs| ==> inputs[i] in store.artifacts
      modifies `calls
      ensures Valid()
      ensures calls == old(calls) + [ModelCall(workflow, attempt, kind, policy, budget, inputs, r)]
    {
      r := *;
      calls := calls + [ModelCall(workflow, attempt, kind, policy, budget, inputs, r)];
    }

    method CallValidator(workflow: nat, attempt: TaskAttempt, kind: TaskKind, budget: TaskBudget, inputs: seq<ArtifactId>)
      returns (r: Result<Report, Text>)
      requires Valid() && forall i :: 0 <= i < |inputs| ==> inputs[i] in store.artifacts
      modifies `calls
      ensures Valid()
      ensures calls == old(calls) + [ValidationCall(workflow, attempt, kind, budget, inputs, r)]
    {
      r := *;
      calls := calls + [ValidationCall(workflow, attempt, kind, budget, inputs, r)];
    }

    // ----- The stages -----

    // What a stage leaves behind after n failed attempts: one more artifact and its
    // announcements, or an error and no artifact at all.
    ghost predicate StageOutcome(plan: Plan, base: Artifacts, table: TaskStateTable, k: nat, limits: ArtifactLimits,
                                 before: Artifacts, announced: seq<Event>, n: nat, r: Outcome<()>)
      reads this, store, table.states
    {
      && Valid()
      && n < AttemptsAt(plan, k)
      && Kept(before, store.artifacts)
      && (r.Ok? ==> Running(plan, base, table, k + 1, 0) && events == announced + StageEvents(plan, k, n))
      && (r.Err? ==>
            && AttemptError(plan, limits, k, n, r.error) && store.artifacts == before && Committed(plan, base, before, k)
            && events == announced + Retries(plan, k, n) + [Started(plan, k, n)])
    }

    // run_model_stage: retries until the port answers or the budget is spent.
    method RunModelStage(plan: Plan, table: TaskStateTable, k: nat, kind: TaskKind, inputs: seq<ArtifactId>, configuration: Configuration,
                         ghost base: Artifacts)
      returns (r: Outcome<()>, ghost made: seq<Call>, ghost n: nat)
      requires (k == 0 && kind == DraftTask) || (k == 3 && kind == ReviewTask) || (k == 4 && kind == ReviseTask)
      requires Declared(CanonicalFlow(plan), TaskAt(plan, k), inputs)
      requires plan.budgets == Budgets(configuration.modelBudget.maximumAttempts, configuration.validationBudget.maximumAttempts)
      requires Running(plan, base, table, k, 0) && |base| + TASK_COUNT <= store.maximum && plan.specification.id in base
      modifies `events, `calls, table.states, store
      ensures StageOutcome(plan, base, table, k, configuration.limits, old(store.artifacts), old(events), n, r)
      ensures calls == old(calls) + made && StageCalls(plan, configuration, k, n, made)
      ensures Concluded(plan, configuration.limits, k, n, made[n], store.artifacts, r)
    {
      hide AtStage, WellTyped, Committed, AttemptError, SizeVerdict, Retries, StageEvents, Kept, Started, Declared;
      hide Asked, FailedCalls, StageCalls, Concluded, Delivers, Stores, OutputAt, TextContent, ReportContent, ContentMatches, WorkflowExecutor.Valid;
      hide AttemptsAt, CanonicalFlow, Failing, StageAt;
      NoneAnnounced(plan, k, events);
      KeptSelf(store.artifacts);
      n, made := 0, [];
      NoCalls(plan, configuration, k);
      while true
        invariant Running(plan, base, table, k, n)
        invariant events == old(events) + Retries(plan, k, n) && store.artifacts == old(store.artifacts)
        invariant calls == old(calls) + made && FailedCalls(plan, configuration, k, n, made)
        decreases U16_MAX - n
      {
        ghost var before := table.states[..];
        StageFits(plan, before, k, n);
        var attempt;
        attempt, r := BeginAttempt(plan, table, k, base, n);
        InputsCommitted(plan, base, store.artifacts, k, inputs);
        var answer := CallModel(plan.workflow, attempt, kind, configuration.modelPolicy, configuration.modelBudget, inputs);
        ghost var failed, call := made, calls[|calls| - 1];
        made := failed + [call];
        ModelAsked(plan, configuration, k, n, attempt, kind, inputs, answer);
        LastCall(plan, configuration, k, n, failed, call);
        match answer {
          case Ok(text) =>
            TextMatches(plan, k, text);
            CommitKeeps(plan, base, store.artifacts, k, Artifact(OutputAt(plan, k), TextContent(k, text)));
            r := CommitOutput(plan, table, k, attempt, TextContent(k, text), configuration.limits, base, before, n);
            StageAnnounced(plan, k, n, old(events));
            TextConcludes(plan, configuration, k, n, made, text, old(store.artifacts), store.artifacts, r);
            return;
          case Err(diagnostic) =>
            ExhaustedIsError(plan, configuration.limits, k, n, diagnostic);
            r := HandleFailure(plan, table, k, attempt, diagnostic, base, before, n);
            if r.Err? {
              FailureConcludes(plan, configuration, k, n, made, diagnostic, store.artifacts, r);
              return;
            }
            RetryAnnounced(plan, k, n, old(events));
            n := n + 1;
        }
      }
    }

    // run_validation_stage: a rejected verdict is an ordinary output.
    method RunValidationStage(plan: Plan, table: TaskStateTable, k: nat, kind: TaskKind, inputs: seq<ArtifactId>, configuration: Configuration,
                              ghost base: Artifacts)
      returns (verdict: Verdict, r: Outcome<()>, ghost made: seq<Call>, ghost n: nat)
      requires (k == 1 && kind == configuration.initialValidation) || (k == 5 && kind == Validate)
      requires Declared(CanonicalFlow(plan), TaskAt(plan, k), inputs)
      requires plan.budgets == Budgets(configuration.modelBudget.maximumAttempts, configuration.validationBudget.maximumAttempts)
      requires Running(plan, base, table, k, 0) && |base| + TASK_COUNT <= store.maximum && plan.specification.id in base
      modifies `events, `calls, table.states, store
      ensures StageOutcome(plan, base, table, k, configuration.limits, old(store.artifacts), old(events), n, r)
      ensures calls == old(calls) + made && StageCalls(plan, configuration, k, n, made)
      ensures Concluded(plan, configuration.limits, k, n, made[n], store.artifacts, r)
      ensures r.Ok? ==> ReportVerdict(store.artifacts, OutputAt(plan, k).id) == Some(verdict)
    {
      hide AtStage, WellTyped, Committed, AttemptError, SizeVerdict, Retries, StageEvents, Kept, Started, Declared;
      hide Asked, FailedCalls, StageCalls, Concluded, Delivers, Stores, OutputAt, TextContent, ReportContent, ContentMatches, WorkflowExecutor.Valid;
      hide AttemptsAt, CanonicalFlow, Failing, StageAt;
      NoneAnnounced(plan, k, events);
      KeptSelf(store.artifacts);
      n, made := 0, [];
      NoCalls(plan, configuration, k);
      verdict := Rejected;
      while true
        invariant Running(plan, base, table, k, n)
        invariant events == old(events) + Retries(plan, k, n) && store.artifacts == old(store.artifacts)
        invariant calls == old(calls) + made && FailedCalls(plan, configuration, k, n, made)
        decreases U16_MAX - n
      {
        ghost var before := table.states[..];
        StageFits(plan, before, k, n);
        var attempt;
        attempt, r := BeginAttempt(plan, table, k, base, n);
        InputsCommitted(plan, base, store.artifacts, k, inputs);
        var answer := CallValidator(plan.workflow, attempt, kind, configuration.validationBudget, inputs);
        ghost var failed, call := made, calls[|calls| - 1];
        made := failed + [call];
        ValidatorAsked(plan, configuration, k, n, attempt, kind, inputs, answer);
        LastCall(plan, configuration, k, n, failed, call);
        match answer {
          case Ok(report) =>
            verdict := report.verdict;
            ReportMatches(plan, k, report);
            CommitKeeps(plan, base, store.artifacts, k, Artifact(OutputAt(plan, k), ReportContent(k, report)));
            r := CommitOutput(plan, table, k, attempt, ReportContent(k, report), configuration.limits, base, before, n);
            StageAnnounced(plan, k, n, old(events));
            ReportConcludes(plan, configuration, k, n, made, report, old(store.artifacts), store.artifacts, r);
            return;
          case Err(diagnostic) =>
            ExhaustedIsError(plan, configuration.limits, k, n, diagnostic);
            r := HandleFailure(plan, table, k, attempt, diagnostic, base, before, n);
            if r.Err? {
              FailureConcludes(plan, configuration, k, n, made, diagnostic, store.artifacts, r);
              return;
            }
            RetryAnnounced(plan, k, n, old(events));
            n := n + 1;
        }
      }
    }

    // require_raw_validation.
    method RequireRawValidation(id: ArtifactId) returns (report: Report, r: Outcome<()>)
      requires store.Valid()
      ensures r.Ok? <==> id in store.artifacts && store.artifacts[id].content.RawValidation?
      ensures r.Ok? ==> report == store.artifacts[id].content.report
      ensures r.Err? ==> r.error == InvalidCommittedArtifact(id)
    {
      report := Report(Rejected, []);
      if id !in store.artifacts || !store.artifacts[id].content.RawValidation? {
        return report, Err(InvalidCommittedArtifact(id));
      }
      return store.artifacts[id].content.report, Ok(());
    }

    // run_normalization_stage: one attempt, and the raw report is always there.
    method RunNormalizationStage(plan: Plan, table: TaskStateTable, limits: ArtifactLimits, ghost base: Artifacts) returns (r: Outcome<()>)
      requires Running(plan, base, table, 2, 0) && |base| + TASK_COUNT <= store.maximum
      modifies `events, table.states, store
      ensures StageOutcome(plan, base, table, 2, limits, old(store.artifacts), old(events), 0, r)
      ensures r.Ok? ==> Normalized(plan, store.artifacts, normalize)
      ensures NormalConcluded(plan, limits, store.artifacts, normalize, r)
    {
      hide AtStage, WellTyped, Committed, AttemptError, SizeVerdict, Retries, StageEvents, Kept, Started;
      NoneAnnounced(plan, 2, events);
      KeptSelf(store.artifacts);
      ghost var before := table.states[..];
      var attempt;
      attempt, r := BeginAttempt(plan, table, 2, base, 0);
      RawValidationCommitted(plan, base, store.artifacts);
      var report;
      report, r := RequireRawValidation(OutputAt(plan, 1).id);
      if r.Err? {
        return;
      }
      var normalized := Report(report.verdict, normalize(report.diagnostics));
      CommitKeeps(plan, base, store.artifacts, 2, Artifact(OutputAt(plan, 2), NormalizedDiagnostics(normalized)));
      r := CommitOutput(plan, table, 2, attempt, NormalizedDiagnostics(normalized), limits, base, before, 0);
      StageAnnounced(plan, 2, 0, old(events));
    }

    // ----- Admission -----

    // allocate_id for tasks and outputs, six at a time.
    method ReserveTasks() returns (first: nat, r: Outcome<()>)
      requires nextTask <= U64_MAX
      modifies `nextTask
      ensures r.Ok? <==> old(nextTask) + TASK_COUNT <= U64_MAX
      ensures r.Ok? ==> first == old(nextTask) && nextTask == first + TASK_COUNT
      ensures old(nextTask) <= nextTask <= U64_MAX
      ensures r.Err? ==> r.error == IdentifierExhausted(TaskIdentifier)
    {
      first := nextTask;
      for i := 0 to TASK_COUNT
        invariant nextTask == first + i <= U64_MAX
      {
        if nextTask + 1 > U64_MAX {
          return first, Err(IdentifierExhausted(TaskIdentifier));
        }
        nextTask := nextTask + 1;
      }
      return first, Ok(());
    }

    method ReserveOutputs() returns (first: nat, r: Outcome<()>)
      requires nextArtifact <= U64_MAX
      modifies `nextArtifact
      ensures r.Ok? <==> old(nextArtifact) + TASK_COUNT <= U64_MAX
      ensures r.Ok? ==> first == old(nextArtifact) && nextArtifact == first + TASK_COUNT
      ensures old(nextArtifact) <= nextArtifact <= U64_MAX
      ensures r.Err? ==> r.error == IdentifierExhausted(ArtifactIdentifier)
    {
      first := nextArtifact;
      for i := 0 to TASK_COUNT
        invariant nextArtifact == first + i <= U64_MAX
      {
        if nextArtifact + 1 > U64_MAX {
          return first, Err(IdentifierExhausted(ArtifactIdentifier));
        }
        nextArtifact := nextArtifact + 1;
      }
      return first, Ok(());
    }

    // The plan of a run that is admitted now.
    ghost function PlanOf(specification: ArtifactId, configuration: Configuration): Plan
      reads this, store
      requires specification in store.artifacts
    {
      Plan(nextWorkflow, nextTask, nextArtifact, store.artifacts[specification].reference,
           Budgets(configuration.modelBudget.maximumAttempts, configuration.validationBudget.maximumAttempts))
    }

    // Everything execute checks or reserves before its first stage.
    ghost predicate Admitted(specification: ArtifactId, configuration: Configuration)
      reads this, store
    {
      && (forall cause :: !Faulty(configuration, cause))
      && specification in store.artifacts
      && store.artifacts[specification].content.SpecificationText?
      && |store.artifacts| + TASK_COUNT <= store.maximum
      && |events| + LongestStream(PlanOf(specification, configuration)) <= maximumEvents
      && nextWorkflow + 1 <= U64_MAX && nextTask + TASK_COUNT <= U64_MAX && nextArtifact + TASK_COUNT <= U64_MAX
    }

    // Each refusal names a check that really fails.
    ghost predicate RefusedFor(specification: ArtifactId, configuration: Configuration, error: WorkflowError)
      reads this, store
    {
      match error
      case InvalidConfiguration(cause) => Faulty(configuration, cause)
      case UnknownSpecification(artifact) => artifact == specification && specification !in store.artifacts
      case InvalidSpecification(reference) =>
        specification in store.artifacts && !store.artifacts[specification].content.SpecificationText? && reference == store.artifacts[specification].reference
      case StoreFailure(ArtifactCapacityExceeded(required, available)) => required == TASK_COUNT > available == store.maximum - |store.artifacts|
      case EventCapacityExceeded(required, available) =>
        && specification in store.artifacts
        && required == LongestStream(PlanOf(specification, configuration)) > available == maximumEvents - |events|
      case IdentifierExhausted(kind) =>
        (match kind
         case WorkflowIdentifier => nextWorkflow == U64_MAX
         case TaskIdentifier => nextTask + TASK_COUNT > U64_MAX
         case ArtifactIdentifier => nextArtifact + TASK_COUNT > U64_MAX)
      case _ => false
    }

    // Checks and reservations, in order; nothing is committed or announced yet.
    method Admit(specification: ArtifactId, configuration: Configuration) returns (plan: Plan, r: Outcome<()>)
      requires Valid()
      modifies `nextWorkflow, `nextTask, `nextArtifact
      ensures Valid()
      ensures r.Ok? <==> old(Admitted(specification, configuration))
      ensures r.Err? ==> old(RefusedFor(specification, configuration, r.error))
      ensures r.Ok? ==>
        && plan == old(PlanOf(specification, configuration))
        && plan.specification.id == specification && nextArtifact == plan.firstOutput + TASK_COUNT
    {
      hide CheckConfiguration, WellTyped, LongestStream, Faulty, Needed;
      plan := Plan(0, 0, 0, Reference(0, TextKind, SpecificationRole), Budgets(1, 1));
      ConfigurationChecked(configuration);
      r := CheckConfiguration(configuration);
      if r.Err? {
        return;
      }
      if specification !in store.artifacts {
        return plan, Err(UnknownSpecification(specification));
      }
      var artifact := store.artifacts[specification];
      KeyIsId(store.artifacts, specification);
      SpecificationIs(store.artifacts, specification);
      NeededFromStart(PlanOf(specification, configuration), configuration);
      if !IsSpecification(artifact) {
        return plan, Err(InvalidSpecification(artifact.reference));
      }
      var room := store.RemainingCapacity();
      if room < TASK_COUNT {
        return plan, Err(StoreFailure(ArtifactCapacityExceeded(TASK_COUNT, room)));
      }
      var required, available := RequiredEvents(configuration), RemainingEvents();
      if required > available {
        return plan, Err(EventCapacityExceeded(required, available));
      }
      if nextWorkflow + 1 > U64_MAX {
        return plan, Err(IdentifierExhausted(WorkflowIdentifier));
      }
      var workflow := nextWorkflow;
      nextWorkflow := nextWorkflow + 1;
      var firstTask, firstOutput;
      firstTask, r := ReserveTasks();
      if r.Err? {
        return;
      }
      firstOutput, r := ReserveOutputs();
      if r.Err? {
        return;
      }
      plan := Plan(workflow, firstTask, firstOutput, artifact.reference,
                   Budgets(configuration.modelBudget.maximumAttempts, configuration.validationBudget.maximumAttempts));
    }

    // The canonical plan always validates.
    method ValidatePlan(plan: Plan) returns (r: Outcome<()>)
      requires plan.specification.id < plan.firstOutput
      ensures r == Ok(())
    {
      hide Structured, InDegreesFit, Acyclic, FlowOk;
      GraphStructured(plan);
      GraphAcyclic(plan);
      GraphInDegreesFit(plan);
      FlowAccepted(plan);
      var counts, queue := new nat[TASK_COUNT], new nat[TASK_COUNT];
      var graph := ValidateGraph(CanonicalGraph(plan), counts, queue);
      r := OfGraph(graph);
      if r.Err? {
        return;
      }
      var flow := ValidateArtifactFlow(CanonicalGraph(plan), CanonicalFlow(plan));
      r := OfFlow(flow);
    }

    // The six stages in order.
    method RunStages(plan: Plan, table: TaskStateTable, configuration: Configuration, ghost base: Artifacts)
      returns (verdict: Verdict, r: Outcome<()>, ghost failures: seq<nat>, ghost stages: seq<seq<Call>>)
      requires Running(plan, base, table, 0, 0) && |base| + TASK_COUNT <= store.maximum && plan.specification.id in base
      requires plan.budgets == Budgets(configuration.modelBudget.maximumAttempts, configuration.validationBudget.maximumAttempts)
      modifies `events, `calls, table.states, store
      ensures Valid()
      ensures r.Ok? ==> Running(plan, base, table, TASK_COUNT, 0) && |stages| == TASK_COUNT
      ensures r.Ok? ==> Ran(plan, configuration, normalize, old(Now()), Now(), failures, stages)
      ensures r.Ok? ==> ReportVerdict(store.artifacts, OutputAt(plan, 5).id) == Some(verdict)
      ensures r.Err? ==> Stopped(plan, configuration, normalize, old(Now()), Now(), failures, stages, r)
      ensures r.Err? ==> Committed(plan, base, store.artifacts, |failures| - 1)
    {
      hide AtStage, WellTyped, Committed, AttemptError, ReportVerdict, Retries, StageEvents, RunEvents, Started, Normalized, Running, Kept, Declared;
      hide StageCalls, Concluded, NormalConcluded, Ran, Stopped, OutputAt, CanonicalFlow, StageAt, WorkflowExecutor.Valid, AttemptsAt, TaskAt;
      ghost var start, before, made, n := Now(), Now(), [], 0;
      verdict := Rejected;
      failures, stages := [], [];
      NothingRan(plan, configuration, normalize, start);
      DeclaredInputs(plan);
      r, made, n := RunModelStage(plan, table, 0, DraftTask, [plan.specification.id], configuration, base);
      failures, stages := StageRan(plan, configuration, normalize, start, before, Now(), failures, stages, n, made, r);
      if r.Err? {
        return;
      }
      before := Now();
      verdict, r, made, n := RunValidationStage(plan, table, 1, configuration.initialValidation, [OutputAt(plan, 0).id], configuration, base);
      failures, stages := StageRan(plan, configuration, normalize, start, before, Now(), failures, stages, n, made, r);
      if r.Err? {
        return;
      }
      before := Now();
      r := RunNormalizationStage(plan, table, configuration.limits, base);
      failures, stages := StageRan(plan, configuration, normalize, start, before, Now(), failures, stages, 0, [], r);
      if r.Err? {
        return;
      }
      before := Now();
      r, made, n := RunModelStage(plan, table, 3, ReviewTask, [plan.specification.id, OutputAt(plan, 0).id, OutputAt(plan, 2).id], configuration, base);
      failures, stages := StageRan(plan, configuration, normalize, start, before, Now(), failures, stages, n, made, r);
      if r.Err? {
        return;
      }
      before := Now();
      r, made, n := RunModelStage(plan, table, 4, ReviseTask,
                                  [plan.specification.id, OutputAt(plan, 0).id, OutputAt(plan, 2).id, OutputAt(plan, 3).id], configuration, base);
      failures, stages := StageRan(plan, configuration, normalize, start, before, Now(), failures, stages, n, made, r);
      if r.Err? {
        return;
      }
      before := Now();
      verdict, r, made, n := RunValidationStage(plan, table, 5, Validate, [OutputAt(plan, 4).id], configuration, base);
      failures, stages := StageRan(plan, configuration, normalize, start, before, Now(), failures, stages, n, made, r);
    }

    // execute: refused before anything is committed, exactly when not admitted; otherwise
    // it succeeds with exactly six new artifacts or ends in one of three errors. No
    // earlier artifact ever changes, and events are only appended.
    method ExecuteWorkflow(specification: ArtifactId, configuration: Configuration)
      returns (result: Outcome<WorkflowOutcome>, ghost failures: seq<nat>, ghost stages: seq<seq<Call>>)
      requires Valid()
      modifies this, store
      ensures Valid()
      ensures !old(Admitted(specification, configuration)) ==>
        && result.Err? && old(RefusedFor(specification, configuration, result.error))
        && store.artifacts == old(store.artifacts) && events == old(events) && calls == old(calls)
      ensures old(Admitted(specification, configuration)) ==>
        var plan := old(PlanOf(specification, configuration));
        && (result.Ok? ==>
              && |stages| == TASK_COUNT
              && Committed(plan, old(store.artifacts), store.artifacts, TASK_COUNT)
              && result.value.workflow == plan.workflow
              && result.value.revision == OutputAt(plan, 4).id && result.value.validation == OutputAt(plan, 5).id
              && ReportVerdict(store.artifacts, result.value.validation) == Some(if result.value.status.Accepted? then Passed else Rejected)
              && events != [] && events[|events| - 1] == Ending(result.value)
              && Ran(plan, configuration, normalize, old(Now()), Now().(events := events[..|events| - 1]), failures, stages))
        && (result.Err? ==>
              && Stopped(plan, configuration, normalize, old(Now()), Now(), failures, stages, Err(result.error))
              && Committed(plan, old(store.artifacts), store.artifacts, |failures| - 1))
    {
      hide Ran, Stopped;
      hide AtStage, WellTyped, Committed, AttemptError, ReportVerdict, LongestStream, Faulty;
      ghost var base := store.artifacts;
      failures, stages := [], [];
      var plan, r := Admit(specification, configuration);
      if r.Err? {
        return Err(r.error), failures, stages;
      }
      NeededFromStart(plan, configuration);
      r := ValidatePlan(plan);
      if r.Err? {
        assert false;
      }
      var states := new TaskState[TASK_COUNT](_ => TaskState(Pending, 0));
      var table := new TaskStateTable(states);
      FreshPlan(plan, base, states[..]);
      var verdict;
      verdict, r, failures, stages := RunStages(plan, table, configuration, base);
      if r.Err? {
        return Err(r.error), failures, stages;
      }
      var status := if verdict.Passed? then Accepted else Refused;
      var outcome := WorkflowOutcome(status, plan.workflow, OutputAt(plan, 4).id, OutputAt(plan, 5).id);
      r := EnqueueEvent(Ending(outcome));
      if r.Err? {
        assert false;
      }
      return Ok(outcome), failures, stages;
    }

    // insert_specification.
    method InsertSpecification(text: Text) returns (result: Outcome<ArtifactId>)
      requires Valid()
      modifies `nextArtifact, store
      ensures Valid()
      ensures result.Ok? <==>
        |text| <= maximumSpecificationBytes && old(nextArtifact) + 1 <= U64_MAX && |old(store.artifacts)| < store.maximum
      ensures result.Ok? ==>
        && result.value == old(nextArtifact) && result.value !in old(store.artifacts)
        && store.artifacts == old(store.artifacts)[result.value := Artifact(Reference(result.value, TextKind, SpecificationRole), SpecificationText(text))]
      ensures result.Err? ==>
        && store.artifacts == old(store.artifacts)
        && result.error == if |text| > maximumSpecificationBytes then SpecificationCapacityExceeded(|text|, maximumSpecificationBytes)
                           else if old(nextArtifact) + 1 > U64_MAX then IdentifierExhausted(ArtifactIdentifier)
                           else StoreFailure(ArtifactCapacityExceeded(1, 0))
    {
      hide WellTyped;
      if |text| > maximumSpecificationBytes {
        return Err(SpecificationCapacityExceeded(|text|, maximumSpecificationBytes));
      }
      if nextArtifact + 1 > U64_MAX {
        return Err(IdentifierExhausted(ArtifactIdentifier));
      }
      var id := nextArtifact;
      nextArtifact := nextArtifact + 1;
      var inserted := store.Insert(Artifact(Reference(id, TextKind, SpecificationRole), SpecificationText(text)));
      if inserted.Err? {
        return Err(StoreFailure(inserted.error));
      }
      return Ok(id);
    }
  }

  // ----- Contents and their facts -----

  function TextContent(k: nat, text: Text): Content {
    if k == 0 then DraftText(text) else if k == 3 then ReviewText(text) else RevisionText(text)
  }

  function ReportContent(k: nat, report: Report): Content {
    if k == 1 then RawValidation(report) else FinalValidation(report)
  }

  function ReportVerdict(artifacts: Artifacts, id: ArtifactId): Option<Verdict> {
    if id !in artifacts then None
    else
      match artifacts[id].content
      case RawValidation(report) => Some(report.verdict)
      case FinalValidation(report) => Some(report.verdict)
      case _ => None
  }

  function Ending(outcome: WorkflowOutcome): Event {
    Completed(outcome.workflow, outcome.status, outcome.revision, outcome.validation)
  }

  // Nothing that was committed is changed.
  ghost predicate Kept(before: Artifacts, after: Artifacts) {
    forall id :: id in before ==> id in after && after[id] == before[id]
  }

  // The third artifact is the second one, normalized, with the same verdict.
  ghost predicate Normalized(plan: Plan, artifacts: Artifacts, normalize: seq<Finding> -> seq<Finding>) {
    var raw, normalized := OutputAt(plan, 1).id, OutputAt(plan, 2).id;
    && raw in artifacts && normalized in artifacts && artifacts[raw].content.RawValidation?
    && artifacts[normalized].content
       == NormalizedDiagnostics(Report(artifacts[raw].content.report.verdict, normalize(artifacts[raw].content.report.diagnostics)))
  }

  lemma NormalizedKept(plan: Plan, before: Artifacts, after: Artifacts, normalize: seq<Finding> -> seq<Finding>)
    requires Normalized(plan, before, normalize) && Kept(before, after)
    ensures Normalized(plan, after, normalize)
  {
  }

  lemma ExhaustedIsError(plan: Plan, limits: ArtifactLimits, k: nat, n: nat, diagnostic: Text)
    ensures AttemptError(plan, limits, k, n, TaskExhausted(plan.workflow, StageAt(k), TaskAt(plan, k), n + 1, diagnostic)) <==> n + 1 == AttemptsAt(plan, k)
  {
  }

  lemma KeptSelf(artifacts: Artifacts)
    ensures Kept(artifacts, artifacts)
  {
  }

  lemma NothingRan(plan: Plan, c: Configuration, normalize: seq<Finding> -> seq<Finding>, start: Snapshot)
    ensures Ran(plan, c, normalize, start, start, [], [])
  {
  }

  lemma NothingElse(r: Outcome<()>)
    requires r.Ok?
    ensures r == Ok(())
  {
    match r.value
    case () =>
  }

  lemma NoCalls(plan: Plan, c: Configuration, k: nat)
    ensures FailedCalls(plan, c, k, 0, [])
  {
  }

  lemma LastCall(plan: Plan, c: Configuration, k: nat, n: nat, failed: seq<Call>, call: Call)
    requires FailedCalls(plan, c, k, n, failed) && Asked(plan, c, k, n, call)
    ensures |failed| == n && StageCalls(plan, c, k, n, failed + [call])
    ensures (if call.ModelCall? then call.text.Err? else call.report.Err?) ==> FailedCalls(plan, c, k, n + 1, failed + [call])
  {
    hide Asked;
  }

  lemma ModelAsked(plan: Plan, c: Configuration, k: nat, n: nat, attempt: TaskAttempt, kind: TaskKind, inputs: seq<ArtifactId>, text: Result<Text, Text>)
    requires (k == 0 && kind == DraftTask) || (k == 3 && kind == ReviewTask) || (k == 4 && kind == ReviseTask)
    requires Declared(CanonicalFlow(plan), TaskAt(plan, k), inputs) && attempt == TaskAttempt(TaskAt(plan, k), n + 1)
    ensures Asked(plan, c, k, n, ModelCall(plan.workflow, attempt, kind, c.modelPolicy, c.modelBudget, inputs, text))
  {
    hide Declared;
  }

  lemma ValidatorAsked(plan: Plan, c: Configuration, k: nat, n: nat, attempt: TaskAttempt, kind: TaskKind, inputs: seq<ArtifactId>, report: Result<Report, Text>)
    requires (k == 1 && kind == c.initialValidation) || (k == 5 && kind == Validate)
    requires Declared(CanonicalFlow(plan), TaskAt(plan, k), inputs) && attempt == TaskAttempt(TaskAt(plan, k), n + 1)
    ensures Asked(plan, c, k, n, ValidationCall(plan.workflow, attempt, kind, c.validationBudget, inputs, report))
  {
    hide Declared;
  }

  lemma TextMatches(plan: Plan, k: nat, text: Text)
    requires k == 0 || k == 3 || k == 4
    ensures ContentMatches(OutputAt(plan, k), TextContent(k, text))
  {
  }

  lemma ReportMatches(plan: Plan, k: nat, report: Report)
    requires k == 1 || k == 5
    ensures ContentMatches(OutputAt(plan, k), ReportContent(k, report))
  {
  }

  lemma TextConcludes(plan: Plan, c: Configuration, k: nat, n: nat, made: seq<Call>, text: Text, before: Artifacts, after: Artifacts, r: Outcome<()>)
    requires k == 0 || k == 3 || k == 4
    requires |made| == n + 1 && made[n].ModelCall? && made[n].text == Ok(text) && r == SizeVerdict(plan, c.limits, k, TextContent(k, text))
    requires r.Ok? ==> after == before[OutputAt(plan, k).id := Artifact(OutputAt(plan, k), TextContent(k, text))]
    ensures Concluded(plan, c.limits, k, n, made[n], after, r)
  {
    hide SizeVerdict;
    assert Delivers(k, made[n], TextContent(k, text));
  }

  lemma ReportConcludes(plan: Plan, c: Configuration, k: nat, n: nat, made: seq<Call>, report: Report, before: Artifacts, after: Artifacts, r: Outcome<()>)
    requires k == 1 || k == 5
    requires |made| == n + 1 && made[n].ValidationCall? && made[n].report == Ok(report) && r == SizeVerdict(plan, c.limits, k, ReportContent(k, report))
    requires r.Ok? ==> after == before[OutputAt(plan, k).id := Artifact(OutputAt(plan, k), ReportContent(k, report))]
    ensures Concluded(plan, c.limits, k, n, made[n], after, r)
    ensures r.Ok? ==> ReportVerdict(after, OutputAt(plan, k).id) == Some(report.verdict)
  {
    hide SizeVerdict;
    assert Delivers(k, made[n], ReportContent(k, report));
  }

  lemma FailureConcludes(plan: Plan, c: Configuration, k: nat, n: nat, made: seq<Call>, diagnostic: Text, artifacts: Artifacts, r: Outcome<()>)
    requires StageCalls(plan, c, k, n, made) && n + 1 == AttemptsAt(plan, k)
    requires plan.budgets == Budgets(c.modelBudget.maximumAttempts, c.validationBudget.maximumAttempts)
    requires if made[n].ModelCall? then made[n].text == Err(diagnostic) else made[n].report == Err(diagnostic)
    requires r.Err? && r.error == TaskExhausted(plan.workflow, StageAt(k), TaskAt(plan, k), n + 1, diagnostic)
    ensures Concluded(plan, c.limits, k, n, made[n], artifacts, r)
  {
    hide Declared;
  }

  // One more stage ran, and committed or ended the workflow.
  lemma StageRan(plan: Plan, c: Configuration, normalize: seq<Finding> -> seq<Finding>, start: Snapshot, before: Snapshot, after: Snapshot,
                 failures: seq<nat>, stages: seq<seq<Call>>, n: nat, made: seq<Call>, r: Outcome<()>)
    returns (next: seq<nat>, answers: seq<seq<Call>>)
    requires Ran(plan, c, normalize, start, before, failures, stages) && |failures| == |stages| < TASK_COUNT && n < AttemptsAt(plan, |stages|)
    requires r.Ok? ==> after.events == before.events + StageEvents(plan, |stages|, n)
    requires r.Err? ==> AttemptError(plan, c.limits, |stages|, n, r.error)
                        && after.events == before.events + Retries(plan, |stages|, n) + [Started(plan, |stages|, n)]
    requires after.calls == before.calls + made && Kept(before.artifacts, after.artifacts)
    requires |stages| == 2 ==> made == [] && NormalConcluded(plan, c.limits, after.artifacts, normalize, r)
    requires |stages| == 2 && r.Ok? ==> Normalized(plan, after.artifacts, normalize)
    requires |stages| != 2 ==> StageCalls(plan, c, |stages|, n, made) && Concluded(plan, c.limits, |stages|, n, made[n], after.artifacts, r)
    ensures |next| == |answers| == |stages| + 1
    ensures r.Ok? ==> Ran(plan, c, normalize, start, after, next, answers)
    ensures r.Err? ==> Stopped(plan, c, normalize, start, after, next, answers, r)
  {
    hide Retries, StageEvents, AttemptError, NormalConcluded, Concluded, Delivered, Asked, Kept, RunCalls, Normalized;
    next, answers := failures + [n], stages + [made];
    assert next[..|next| - 1] == failures;
    OneMoreCall(plan, c, failures, stages, n, made, start.calls, before.calls, after.calls);
    StageStored(plan, c, stages, n, made, before.artifacts, after.artifacts, r);
    if |stages| > 2 {
      NormalizedKept(plan, before.artifacts, after.artifacts, normalize);
    }
  }

  lemma OneMoreCall(plan: Plan, c: Configuration, failures: seq<nat>, stages: seq<seq<Call>>, n: nat, made: seq<Call>, asked: seq<Call>,
                    earlier: seq<Call>, calls: seq<Call>)
    requires RunCalls(plan, c, failures, stages, asked, earlier) && calls == earlier + made
    requires if |failures| == 2 then made == [] else StageCalls(plan, c, |failures|, n, made)
    ensures RunCalls(plan, c, failures + [n], stages + [made], asked, calls)
  {
    hide StageCalls;
    assert (stages + [made])[..|stages|] == stages;
  }

  lemma StageStored(plan: Plan, c: Configuration, stages: seq<seq<Call>>, n: nat, made: seq<Call>, committed: Artifacts, artifacts: Artifacts, r: Outcome<()>)
    requires Delivered(plan, stages, |stages|, committed) && Kept(committed, artifacts)
    requires |stages| != 2 ==> StageCalls(plan, c, |stages|, n, made) && Concluded(plan, c.limits, |stages|, n, made[n], artifacts, r)
    ensures Delivered(plan, stages + [made], if r.Ok? then |stages| + 1 else |stages|, artifacts)
  {
    hide StageDelivered, Asked, SizeVerdict, Delivers, Stores;
    var called := stages + [made];
    forall k | 0 <= k < |stages| && k != 2
      ensures StageDelivered(plan, k, called[k], artifacts)
    {
      DeliveredKept(plan, k, stages[k], committed, artifacts);
    }
    if r.Ok? && |stages| != 2 {
      AnswerStored(plan, c.limits, |stages|, n, made, artifacts, r);
    }
  }

  lemma DeliveredKept(plan: Plan, k: nat, made: seq<Call>, before: Artifacts, after: Artifacts)
    requires StageDelivered(plan, k, made, before) && Kept(before, after)
    ensures StageDelivered(plan, k, made, after)
  {
    var content :| Delivers(k, made[|made| - 1], content) && Stores(plan, k, before, content);
    assert Stores(plan, k, after, content);
  }

  lemma AnswerStored(plan: Plan, limits: ArtifactLimits, k: nat, n: nat, made: seq<Call>, artifacts: Artifacts, r: Outcome<()>)
    requires |made| == n + 1 && r.Ok? && Concluded(plan, limits, k, n, made[n], artifacts, r)
    ensures StageDelivered(plan, k, made, artifacts)
  {
    hide SizeVerdict, Delivers, Stores;
  }

  lemma NoneAnnounced(plan: Plan, k: nat, announced: seq<Event>)
    ensures announced + Retries(plan, k, 0) == announced
  {
  }

  lemma RetryAnnounced(plan: Plan, k: nat, n: nat, announced: seq<Event>)
    ensures announced + Retries(plan, k, n) + [Started(plan, k, n)]
            + [RetryScheduled(plan.workflow, StageAt(k), AttemptAt(plan, k, n), AttemptAt(plan, k, n + 1))]
            == announced + Retries(plan, k, n + 1)
  {
  }

  lemma StageAnnounced(plan: Plan, k: nat, n: nat, announced: seq<Event>)
    ensures announced + Retries(plan, k, n) + [Started(plan, k, n)]
            + [ArtifactCommitted(plan.workflow, StageAt(k), AttemptAt(plan, k, n), OutputAt(plan, k))]
            == announced + StageEvents(plan, k, n)
  {
    hide Retries;
  }

  // An output has a fresh id, so committing it changes nothing committed before.
  lemma CommitKeeps(plan: Plan, base: Artifacts, before: Artifacts, k: nat, artifact: Artifact)
    requires Committed(plan, base, before, k) && k < TASK_COUNT
    ensures Kept(before, before[OutputAt(plan, k).id := artifact])
  {
  }

  predicate IsSpecification(artifact: Artifact) {
    artifact.reference.kind == TextKind && artifact.reference.role == SpecificationRole && artifact.content.SpecificationText?
  }

  // Only a specification's content can carry the reference of one.
  lemma SpecificationIs(artifacts: Artifacts, id: ArtifactId)
    requires WellTyped(artifacts) && id in artifacts
    ensures IsSpecification(artifacts[id]) <==> artifacts[id].content.SpecificationText?
  {
  }

  lemma KeyIsId(artifacts: Artifacts, id: ArtifactId)
    requires WellTyped(artifacts) && id in artifacts
    ensures artifacts[id].reference.id == id
  {
  }

  lemma InputsCommitted(plan: Plan, base: Artifacts, now: Artifacts, k: nat, inputs: seq<ArtifactId>)
    requires Committed(plan, base, now, k) && k < TASK_COUNT && plan.specification.id in base
    requires Declared(CanonicalFlow(plan), TaskAt(plan, k), inputs)
    ensures forall i :: 0 <= i < |inputs| ==> inputs[i] in now
  {
    hide Declared, OutputAt;
    forall i | 0 <= i < |inputs|
      ensures inputs[i] in now
    {
      DeclaredEarlier(plan, k, inputs, i);
    }
  }

  lemma SizeErrors(plan: Plan, limits: ArtifactLimits, k: nat, n: nat, content: Content)
    requires k < TASK_COUNT && ContentMatches(OutputAt(plan, k), content)
    ensures var r := SizeVerdict(plan, limits, k, content);
            r.Err? ==> AttemptError(plan, limits, k, n, r.error) && !r.error.TaskExhausted?
  {
    hide ContentBytes;
  }

  lemma RawValidationCommitted(plan: Plan, base: Artifacts, now: Artifacts)
    requires Committed(plan, base, now, 2) && WellTyped(now)
    ensures OutputAt(plan, 1).id in now && now[OutputAt(plan, 1).id].content.RawValidation?
  {
    assert now[OutputAt(plan, 1).id].reference == OutputAt(plan, 1);
  }

  lemma FreshPlan(plan: Plan, base: Artifacts, states: States)
    requires |states| == TASK_COUNT && forall i :: 0 <= i < |states| ==> states[i] == TaskState(Pending, 0)
    requires forall id :: id in base ==> id < plan.firstOutput
    ensures AtStage(plan, states, 0, 0) && Committed(plan, base, base, 0)
  {
  }

  lemma StageFits(plan: Plan, states: States, k: nat, n: nat)
    requires AtStage(plan, states, k, n) && k < TASK_COUNT
    ensures n < AttemptsAt(plan, k)
    ensures Needed(plan, k, n) == 2 * (AttemptsAt(plan, k) - n) + Needed(plan, k + 1, 0)
  {
  }
}
