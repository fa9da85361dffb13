// The canonical six-task plan (CanonicalPlan in workflow/executor.rs): for any fresh
// identities it is a graph and a flow that validation accepts.
module WorkflowPlan {
  import opened Common
  import opened TaskGraph
  import opened ArtifactFlow

  const TASK_COUNT: nat := 6

  datatype Budgets = Budgets(modelAttempts: AttemptLimit, validationAttempts: AttemptLimit)

  // One reserved workflow: its first task id, its first output id, its specification
  // and the budgets of its tasks. The other ids follow consecutively.
  datatype Plan = Plan(workflow: nat, firstTask: nat, firstOutput: nat, specification: Reference, budgets: Budgets)

  function TaskAt(plan: Plan, k: nat): TaskId {
    plan.firstTask + k
  }

  // draft, initial validation, normalization, review, revision, final validation.
  function OutputAt(plan: Plan, k: nat): Reference {
    var id := plan.firstOutput + k;
    if k == 0 then Reference(id, TextKind, DraftRole)
    else if k == 1 then Reference(id, DiagnosticsKind, RawDiagnosticsRole)
    else if k == 2 then Reference(id, DiagnosticsKind, NormalizedDiagnosticsRole)
    else if k == 3 then Reference(id, TextKind, ReviewRole)
    else if k == 4 then Reference(id, TextKind, RevisionRole)
    else Reference(id, DiagnosticsKind, FinalValidationRole)
  }

  function AttemptsAt(plan: Plan, k: nat): AttemptLimit {
    if k == 1 || k == 5 then plan.budgets.validationAttempts
    else if k == 2 then 1
    else plan.budgets.modelAttempts
  }

  function Nodes(plan: Plan): seq<TaskNode> {
    seq(TASK_COUNT, k requires 0 <= k < TASK_COUNT => TaskNode(TaskAt(plan, k), AttemptsAt(plan, k), OutputAt(plan, k).kind))
  }

  function Edge(plan: Plan, from: nat, to: nat): TaskDependency {
    TaskDependency(TaskAt(plan, from), TaskAt(plan, to))
  }

  function Edges(plan: Plan): seq<TaskDependency> {
    [Edge(plan, 0, 1), Edge(plan, 1, 2), Edge(plan, 0, 3), Edge(plan, 2, 3),
     Edge(plan, 0, 4), Edge(plan, 2, 4), Edge(plan, 3, 4), Edge(plan, 4, 5)]
  }

  function CanonicalGraph(plan: Plan): Graph {
    Graph(Nodes(plan), Edges(plan))
  }

  // Which artifact a task reads: the specification, or an earlier task's output.
  datatype Binding = OfSpecification(consumer: nat) | OfOutput(consumer: nat, output: nat)

  function Bindings(): seq<Binding> {
    [OfSpecification(0), OfOutput(1, 0), OfOutput(2, 1),
     OfSpecification(3), OfOutput(3, 0), OfOutput(3, 2),
     OfSpecification(4), OfOutput(4, 0), OfOutput(4, 2), OfOutput(4, 3), OfOutput(5, 4)]
  }

  function InputOf(plan: Plan, binding: Binding): TaskInput {
    match binding
    case OfSpecification(consumer) => TaskInput(TaskAt(plan, consumer), plan.specification)
    case OfOutput(consumer, output) => TaskInput(TaskAt(plan, consumer), OutputAt(plan, output))
  }

  function Inputs(plan: Plan): seq<TaskInput> {
    seq(|Bindings()|, i requires 0 <= i < |Bindings()| => InputOf(plan, Bindings()[i]))
  }

  function CanonicalFlow(plan: Plan): Flow {
    Flow([plan.specification], Inputs(plan), Outputs(plan))
  }

  // What a flow declares for one task, all of it and in order.
  ghost predicate Declared(flow: Flow, task: TaskId, ids: seq<ArtifactId>) {
    exists first: nat :: DeclaredFrom(flow, task, ids, first)
  }

  ghost predicate DeclaredFrom(flow: Flow, task: TaskId, ids: seq<ArtifactId>, first: nat) {
    && first + |ids| <= |flow.taskInputs|
    && (forall i :: 0 <= i < |flow.taskInputs| ==> (flow.taskInputs[i].consumer == task <==> first <= i < first + |ids|))
    && (forall i :: 0 <= i < |ids| ==> flow.taskInputs[first + i].artifact.id == ids[i])
  }

  function Outputs(plan: Plan): seq<TaskOutput> {
    seq(TASK_COUNT, k requires 0 <= k < TASK_COUNT => TaskOutput(TaskAt(plan, k), OutputAt(plan, k)))
  }

  // ----- The graph validates -----

  lemma NodeAt(plan: Plan, k: nat)
    requires k < TASK_COUNT
    ensures Known(Nodes(plan), TaskAt(plan, k)) && IndexOf(Nodes(plan), TaskAt(plan, k)) == Some(k)
    ensures Nodes(plan)[k].id == TaskAt(plan, k)
  {
    UniqueIndex(CanonicalGraph(plan), k, TaskAt(plan, k));
  }

  // Every edge goes from an earlier stage to a later one.
  lemma EdgesGoForward(plan: Plan, e: TaskDependency)
    requires e in Edges(plan)
    ensures exists from: nat, to: nat :: from < to < TASK_COUNT && e == Edge(plan, from, to)
  {
    var k :| 0 <= k < |Edges(plan)| && Edges(plan)[k] == e;
    var pairs := [(0, 1), (1, 2), (0, 3), (2, 3), (0, 4), (2, 4), (3, 4), (4, 5)];
    assert e == Edge(plan, pairs[k].0, pairs[k].1);
  }

  lemma GraphStructured(plan: Plan)
    ensures Structured(CanonicalGraph(plan))
  {
    hide IndexOf, Nodes;
    var graph := CanonicalGraph(plan);
    DistinctNodes(plan);
    forall i | 0 <= i < |graph.dependencies|
      ensures Known(graph.nodes, graph.dependencies[i].prerequisite) && Known(graph.nodes, graph.dependencies[i].dependent)
      ensures graph.dependencies[i].prerequisite != graph.dependencies[i].dependent
    {
      assert graph.dependencies[i] in Edges(plan);
      EdgesGoForward(plan, graph.dependencies[i]);
      var from: nat, to: nat :| from < to < TASK_COUNT && graph.dependencies[i] == Edge(plan, from, to);
      NodeAt(plan, from);
      NodeAt(plan, to);
    }
  }

  lemma DistinctNodes(plan: Plan)
    ensures UniqueIds(Nodes(plan))
  {
  }

  lemma GraphAcyclic(plan: Plan)
    ensures Acyclic(Edges(plan))
  {
    var order: seq<TaskId> := seq(TASK_COUNT, k requires 0 <= k < TASK_COUNT => TaskAt(plan, k));
    hide Acyclic, Edges;
    forall q, e | 0 <= q < |order| && e in Edges(plan) && e.dependent == order[q]
      ensures e.prerequisite in order[..q]
    {
      EdgesGoForward(plan, e);
      var from: nat, to: nat :| from < to < TASK_COUNT && e == Edge(plan, from, to);
      assert to == q && order[..q][from] == e.prerequisite;
    }
    forall e | e in Edges(plan)
      ensures e.dependent in order
    {
      EdgesGoForward(plan, e);
      var from: nat, to: nat :| from < to < TASK_COUNT && e == Edge(plan, from, to);
      assert order[to] == e.dependent;
    }
    OrderedIsAcyclic(Edges(plan), order);
  }

  lemma {:induction false} OpenEdgesBounded(edges: seq<TaskDependency>, id: TaskId, done: set<TaskId>)
    ensures OpenEdges(edges, id, done) <= |edges|
  {
    if edges != [] {
      OpenEdgesBounded(edges[..|edges| - 1], id, done);
    }
  }

  lemma GraphInDegreesFit(plan: Plan)
    ensures InDegreesFit(CanonicalGraph(plan))
  {
    hide OpenEdges;
    forall i | 0 <= i < |Nodes(plan)|
      ensures OpenEdges(Edges(plan), Nodes(plan)[i].id, {}) <= U32_MAX
    {
      OpenEdgesBounded(Edges(plan), Nodes(plan)[i].id, {});
    }
  }

  // ----- The flow validates -----

  lemma {:induction false} FindsOutput(outputs: seq<TaskOutput>, k: nat)
    requires k < |outputs|
    requires forall i, j :: 0 <= i < j < |outputs| ==> outputs[i].artifact.id != outputs[j].artifact.id
    ensures FindOutput(outputs, outputs[k].artifact.id) == Some(outputs[k])
  {
    if k > 0 {
      FindsOutput(outputs[1..], k - 1);
    }
  }

  lemma OutputSource(plan: Plan, consumer: nat, output: nat)
    requires consumer < TASK_COUNT && output < TASK_COUNT && plan.specification.id < plan.firstOutput
    requires output != consumer && Edge(plan, output, consumer) in Edges(plan)
    ensures SourceOk(CanonicalGraph(plan), CanonicalFlow(plan), InputOf(plan, OfOutput(consumer, output)))
  {
    hide FindOutput;
    assert FindInput([plan.specification], OutputAt(plan, output).id).None?;
    FindsOutput(Outputs(plan), output);
  }

  lemma SpecificationSource(plan: Plan, consumer: nat)
    requires consumer < TASK_COUNT
    ensures SourceOk(CanonicalGraph(plan), CanonicalFlow(plan), InputOf(plan, OfSpecification(consumer)))
  {
  }

  // A binding that some edge of the graph supports.
  predicate Supported(binding: Binding) {
    match binding
    case OfSpecification(consumer) => consumer < TASK_COUNT
    case OfOutput(consumer, output) =>
      (output, consumer) in [(0, 1), (1, 2), (0, 3), (2, 3), (0, 4), (2, 4), (3, 4), (4, 5)]
  }

  lemma BindingSource(plan: Plan, binding: Binding)
    requires Supported(binding) && plan.specification.id < plan.firstOutput
    ensures SourceOk(CanonicalGraph(plan), CanonicalFlow(plan), InputOf(plan, binding))
  {
    match binding
    case OfSpecification(consumer) => SpecificationSource(plan, consumer);
    case OfOutput(consumer, output) =>
      var pairs := [(0, 1), (1, 2), (0, 3), (2, 3), (0, 4), (2, 4), (3, 4), (4, 5)];
      var k :| 0 <= k < |pairs| && pairs[k] == (output, consumer);
      assert Edges(plan)[k] == Edge(plan, output, consumer);
      OutputSource(plan, consumer, output);
  }

  lemma BindingsDiffer(plan: Plan, a: Binding, b: Binding)
    requires a != b && Supported(a) && Supported(b) && plan.specification.id < plan.firstOutput
    ensures InputOf(plan, a) != InputOf(plan, b)
  {
  }

  lemma BindingsSupported(i: nat, j: nat)
    requires i < j < |Bindings()|
    ensures Supported(Bindings()[i]) && Supported(Bindings()[j]) && Bindings()[i] != Bindings()[j]
  {
  }

  lemma BindingSupported(i: nat)
    requires i < |Bindings()|
    ensures Supported(Bindings()[i])
  {
  }

  lemma FlowSources(plan: Plan)
    requires plan.specification.id < plan.firstOutput
    ensures SourcesOk(CanonicalGraph(plan), CanonicalFlow(plan))
  {
    hide SourceOk, Bindings, Supported, InputOf;
    forall i, j | 0 <= i < j < |Inputs(plan)|
      ensures Inputs(plan)[i] != Inputs(plan)[j]
    {
      BindingsSupported(i, j);
      BindingsDiffer(plan, Bindings()[i], Bindings()[j]);
    }
    forall i | 0 <= i < |Inputs(plan)|
      ensures SourceOk(CanonicalGraph(plan), CanonicalFlow(plan), Inputs(plan)[i])
    {
      BindingSupported(i);
      BindingSource(plan, Bindings()[i]);
    }
  }

  lemma FlowAccepted(plan: Plan)
    requires plan.specification.id < plan.firstOutput
    ensures FlowOk(CanonicalGraph(plan), CanonicalFlow(plan))
  {
    hide SourcesOk, IndexOf, Edges;
    FlowSources(plan);
    FlowTasks(plan);
    forall n | 0 <= n < TASK_COUNT
      ensures ContractMet(Nodes(plan)[n], Outputs(plan))
    {
      assert Outputs(plan)[n].producer == Nodes(plan)[n].id;
    }
  }

  lemma FlowTasks(plan: Plan)
    ensures TasksKnown(CanonicalGraph(plan), CanonicalFlow(plan))
  {
    hide IndexOf, Nodes;
    NodeAt(plan, 0);
    NodeAt(plan, 1);
    NodeAt(plan, 2);
    NodeAt(plan, 3);
    NodeAt(plan, 4);
    NodeAt(plan, 5);
  }

  // ----- What each port is given -----

  lemma DeclaredInputs(plan: Plan)
    ensures Declared(CanonicalFlow(plan), TaskAt(plan, 0), [plan.specification.id])
    ensures Declared(CanonicalFlow(plan), TaskAt(plan, 1), [OutputAt(plan, 0).id])
    ensures Declared(CanonicalFlow(plan), TaskAt(plan, 3), [plan.specification.id, OutputAt(plan, 0).id, OutputAt(plan, 2).id])
    ensures Declared(CanonicalFlow(plan), TaskAt(plan, 4),
                     [plan.specification.id, OutputAt(plan, 0).id, OutputAt(plan, 2).id, OutputAt(plan, 3).id])
    ensures Declared(CanonicalFlow(plan), TaskAt(plan, 5), [OutputAt(plan, 4).id])
  {
    hide OutputAt, DeclaredFrom;
    DeclaredSlice(plan, 0, 0, [OfSpecification(0)], [plan.specification.id]);
    DeclaredSlice(plan, 1, 1, [OfOutput(1, 0)], [OutputAt(plan, 0).id]);
    DeclaredSlice(plan, 3, 3, [OfSpecification(3), OfOutput(3, 0), OfOutput(3, 2)],
                  [plan.specification.id, OutputAt(plan, 0).id, OutputAt(plan, 2).id]);
    DeclaredSlice(plan, 4, 6, [OfSpecification(4), OfOutput(4, 0), OfOutput(4, 2), OfOutput(4, 3)],
                  [plan.specification.id, OutputAt(plan, 0).id, OutputAt(plan, 2).id, OutputAt(plan, 3).id]);
    DeclaredSlice(plan, 5, 10, [OfOutput(5, 4)], [OutputAt(plan, 4).id]);
  }

  // The inputs of one task stand together among the bindings.
  lemma DeclaredSlice(plan: Plan, k: nat, first: nat, slice: seq<Binding>, ids: seq<ArtifactId>)
    requires first + |slice| <= |Bindings()| && Bindings()[first..first + |slice|] == slice
    requires forall i :: 0 <= i < |Bindings()| ==> (Bindings()[i].consumer == k <==> first <= i < first + |slice|)
    requires |ids| == |slice| && forall i :: 0 <= i < |ids| ==> ids[i] == InputOf(plan, slice[i]).artifact.id
    ensures DeclaredFrom(CanonicalFlow(plan), TaskAt(plan, k), ids, first)
  {
    hide Bindings, OutputAt;
    forall i | 0 <= i < |ids|
      ensures CanonicalFlow(plan).taskInputs[first + i].artifact.id == ids[i]
    {
      assert Bindings()[first..first + |slice|][i] == Bindings()[first + i];
    }
  }

  // A task is given the specification and outputs of earlier tasks, nothing else.
  lemma DeclaredEarlier(plan: Plan, k: nat, ids: seq<ArtifactId>, i: nat)
    requires Declared(CanonicalFlow(plan), TaskAt(plan, k), ids) && i < |ids|
    ensures ids[i] == plan.specification.id || exists j: nat :: j < k && j < TASK_COUNT && ids[i] == OutputAt(plan, j).id
  {
    hide OutputAt, Bindings, Supported;
    var first: nat :| DeclaredFrom(CanonicalFlow(plan), TaskAt(plan, k), ids, first);
    var binding := Bindings()[first + i];
    BindingSupported(first + i);
    assert CanonicalFlow(plan).taskInputs[first + i] == InputOf(plan, binding);
    match binding
    case OfSpecification(_) =>
    case OfOutput(consumer, output) =>
      SupportedEarlier(binding);
      assert output < k && ids[i] == OutputAt(plan, output).id;
  }

  lemma SupportedEarlier(binding: Binding)
    requires Supported(binding) && binding.OfOutput?
    ensures binding.output < binding.consumer < TASK_COUNT
  {
  }
}
