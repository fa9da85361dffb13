// Artifact provenance (validate_artifact_flow in task-graph/src/lib.rs): accepts
// exactly the flows whose every input has one declared, ordered source.
module ArtifactFlow {
  import opened Common
  import opened TaskGraph

  type ArtifactId = nat

  datatype ArtifactRole =
    | SpecificationRole | DraftRole | RawDiagnosticsRole | NormalizedDiagnosticsRole | ReviewRole | RevisionRole
    | FinalValidationRole | OtherRole(code: nat)

  datatype Reference = Reference(id: ArtifactId, kind: ArtifactKind, role: ArtifactRole)

  datatype TaskInput = TaskInput(consumer: TaskId, artifact: Reference)

  datatype TaskOutput = TaskOutput(producer: TaskId, artifact: Reference)

  datatype Flow = Flow(workflowInputs: seq<Reference>, taskInputs: seq<TaskInput>, taskOutputs: seq<TaskOutput>)

  datatype FlowError =
    | UnknownFlowTask(task: TaskId)
    | DuplicateWorkflowInput(artifact: ArtifactId)
    | WorkflowInputProducedByTask(artifact: ArtifactId)
    | DuplicateArtifactProducer(artifact: ArtifactId)
    | MissingTaskOutput(task: TaskId)
    | DuplicateTaskOutput(task: TaskId)
    | TaskOutputKindMismatch(task: TaskId, expectedKind: ArtifactKind, actualKind: ArtifactKind)
    | UnknownArtifact(artifact: ArtifactId)
    | ArtifactReferenceMismatch(expected: Reference, actual: Reference)
    | DuplicateTaskArtifactInput(input: TaskInput)
    | SelfArtifactConsumption(task: TaskId, artifact: ArtifactId)
    | MissingArtifactDependency(producer: TaskId, consumer: TaskId, artifact: ArtifactId)

  // Iterator::find over workflow inputs and over task outputs.
  function FindInput(references: seq<Reference>, id: ArtifactId): (r: Option<Reference>)
    ensures r.Some? ==> r.value in references && r.value.id == id
    ensures r.None? ==> forall i :: 0 <= i < |references| ==> references[i].id != id
  {
    if references == [] then None
    else if references[0].id == id then Some(references[0])
    else FindInput(references[1..], id)
  }

  function FindOutput(outputs: seq<TaskOutput>, id: ArtifactId): (r: Option<TaskOutput>)
    ensures r.Some? ==> r.value in outputs && r.value.artifact.id == id
    ensures r.None? ==> forall i :: 0 <= i < |outputs| ==> outputs[i].artifact.id != id
  {
    if outputs == [] then None
    else if outputs[0].artifact.id == id then Some(outputs[0])
    else FindOutput(outputs[1..], id)
  }

  // ----- What a good flow is -----

  predicate TasksKnown(graph: Graph, flow: Flow) {
    && (forall i :: 0 <= i < |flow.taskInputs| ==> Known(graph.nodes, flow.taskInputs[i].consumer))
    && (forall i :: 0 <= i < |flow.taskOutputs| ==> Known(graph.nodes, flow.taskOutputs[i].producer))
  }

  predicate InputsUnique(references: seq<Reference>) {
    forall i, j :: 0 <= i < j < |references| ==> references[i].id != references[j].id
  }

  predicate OutputsUnique(flow: Flow) {
    && (forall i, j :: 0 <= i < |flow.taskOutputs| && 0 <= j < |flow.workflowInputs| ==> flow.workflowInputs[j].id != flow.taskOutputs[i].artifact.id)
    && (forall i, j :: 0 <= i < j < |flow.taskOutputs| ==> flow.taskOutputs[i].artifact.id != flow.taskOutputs[j].artifact.id)
  }

  // Exactly one output, of the declared kind.
  predicate ContractMet(node: TaskNode, outputs: seq<TaskOutput>) {
    exists i :: 0 <= i < |outputs| && outputs[i].producer == node.id && outputs[i].artifact.kind == node.outputKind
                && forall j :: 0 <= j < |outputs| && outputs[j].producer == node.id ==> j == i
  }

  predicate ContractsMet(graph: Graph, flow: Flow) {
    forall n :: 0 <= n < |graph.nodes| ==> ContractMet(graph.nodes[n], flow.taskOutputs)
  }

  // The input names a workflow input exactly, or exactly another task's output that its
  // consumer directly depends on.
  predicate SourceOk(graph: Graph, flow: Flow, input: TaskInput) {
    var source := FindInput(flow.workflowInputs, input.artifact.id);
    if source.Some? then source.value == input.artifact
    else
      var output := FindOutput(flow.taskOutputs, input.artifact.id);
      && output.Some?
      && output.value.artifact == input.artifact
      && output.value.producer != input.consumer
      && TaskDependency(output.value.producer, input.consumer) in graph.dependencies
  }

  predicate SourcesOk(graph: Graph, flow: Flow) {
    && (forall i, j :: 0 <= i < j < |flow.taskInputs| ==> flow.taskInputs[i] != flow.taskInputs[j])
    && (forall i :: 0 <= i < |flow.taskInputs| ==> SourceOk(graph, flow, flow.taskInputs[i]))
  }

  predicate FlowOk(graph: Graph, flow: Flow) {
    && TasksKnown(graph, flow)
    && InputsUnique(flow.workflowInputs)
    && OutputsUnique(flow)
    && ContractsMet(graph, flow)
    && SourcesOk(graph, flow)
  }

  // What each error says about the flow.
  ghost predicate FlowErrorMeans(graph: Graph, flow: Flow, error: FlowError) {
    match error
    case UnknownFlowTask(task) =>
      !Known(graph.nodes, task)
      && ((exists i :: 0 <= i < |flow.taskInputs| && flow.taskInputs[i].consumer == task)
          || exists i :: 0 <= i < |flow.taskOutputs| && flow.taskOutputs[i].producer == task)
    case DuplicateWorkflowInput(artifact) =>
      exists i, j :: 0 <= i < j < |flow.workflowInputs| && flow.workflowInputs[i].id == flow.workflowInputs[j].id == artifact
    case WorkflowInputProducedByTask(artifact) =>
      (exists i :: 0 <= i < |flow.workflowInputs| && flow.workflowInputs[i].id == artifact)
      && exists i :: 0 <= i < |flow.taskOutputs| && flow.taskOutputs[i].artifact.id == artifact
    case DuplicateArtifactProducer(artifact) =>
      exists i, j :: 0 <= i < j < |flow.taskOutputs| && flow.taskOutputs[i].artifact.id == flow.taskOutputs[j].artifact.id == artifact
    case MissingTaskOutput(task) =>
      Known(graph.nodes, task) && forall i :: 0 <= i < |flow.taskOutputs| ==> flow.taskOutputs[i].producer != task
    case DuplicateTaskOutput(task) =>
      exists i, j :: 0 <= i < j < |flow.taskOutputs| && flow.taskOutputs[i].producer == flow.taskOutputs[j].producer == task
    case TaskOutputKindMismatch(task, expectedKind, actualKind) =>
      expectedKind != actualKind
      && (exists n :: 0 <= n < |graph.nodes| && graph.nodes[n].id == task && graph.nodes[n].outputKind == expectedKind)
      && exists i :: 0 <= i < |flow.taskOutputs| && flow.taskOutputs[i].producer == task && flow.taskOutputs[i].artifact.kind == actualKind
    case DuplicateTaskArtifactInput(input) =>
      exists i, j :: 0 <= i < j < |flow.taskInputs| && flow.taskInputs[i] == flow.taskInputs[j] == input
    case _ => exists i :: 0 <= i < |flow.taskInputs| && SourceErrorMeans(graph, flow, flow.taskInputs[i], error)
  }

  // What the errors about one input say.
  predicate SourceErrorMeans(graph: Graph, flow: Flow, input: TaskInput, error: FlowError) {
    match error
    case UnknownArtifact(artifact) =>
      artifact == input.artifact.id
      && (forall i :: 0 <= i < |flow.workflowInputs| ==> flow.workflowInputs[i].id != artifact)
      && forall i :: 0 <= i < |flow.taskOutputs| ==> flow.taskOutputs[i].artifact.id != artifact
    case ArtifactReferenceMismatch(expected, actual) =>
      actual == input.artifact && expected != actual && expected.id == actual.id
      && (expected in flow.workflowInputs || exists i :: 0 <= i < |flow.taskOutputs| && flow.taskOutputs[i].artifact == expected)
    case SelfArtifactConsumption(task, artifact) =>
      task == input.consumer && artifact == input.artifact.id && TaskOutput(task, input.artifact) in flow.taskOutputs
    case MissingArtifactDependency(producer, consumer, artifact) =>
      consumer == input.consumer && artifact == input.artifact.id && producer != consumer
      && TaskOutput(producer, input.artifact) in flow.taskOutputs && TaskDependency(producer, consumer) !in graph.dependencies
    case _ => false
  }

  // ----- The five scans -----

  method ValidateTasks(graph: Graph, flow: Flow) returns (r: Result<(), FlowError>)
    ensures r.Ok? <==> TasksKnown(graph, flow)
    ensures r.Err? ==> FlowErrorMeans(graph, flow, r.error)
  {
    for i := 0 to |flow.taskInputs|
      invariant forall a :: 0 <= a < i ==> Known(graph.nodes, flow.taskInputs[a].consumer)
    {
      if IndexOf(graph.nodes, flow.taskInputs[i].consumer).None? {
        return Err(UnknownFlowTask(flow.taskInputs[i].consumer));
      }
    }
    for i := 0 to |flow.taskOutputs|
      invariant forall a :: 0 <= a < i ==> Known(graph.nodes, flow.taskOutputs[a].producer)
    {
      if IndexOf(graph.nodes, flow.taskOutputs[i].producer).None? {
        return Err(UnknownFlowTask(flow.taskOutputs[i].producer));
      }
    }
    return Ok(());
  }

  method ValidateInputs(references: seq<Reference>) returns (r: Result<(), FlowError>)
    ensures r.Ok? <==> InputsUnique(references)
    ensures r.Err? ==> r.error.DuplicateWorkflowInput?
                       && exists i, j :: 0 <= i < j < |references| && references[i].id == references[j].id == r.error.artifact
  {
    for i := 0 to |references|
      invariant forall a, b :: 0 <= a < i && a < b < |references| ==> references[a].id != references[b].id
    {
      if j :| i < j < |references| && references[j].id == references[i].id {
        return Err(DuplicateWorkflowInput(references[i].id));
      }
    }
    return Ok(());
  }

  method ValidateOutputs(graph: Graph, flow: Flow) returns (r: Result<(), FlowError>)
    ensures r.Ok? <==> OutputsUnique(flow)
    ensures r.Err? ==> FlowErrorMeans(graph, flow, r.error)
  {
    var outputs := flow.taskOutputs;
    for i := 0 to |outputs|
      invariant forall a, b :: 0 <= a < i && 0 <= b < |flow.workflowInputs| ==> flow.workflowInputs[b].id != outputs[a].artifact.id
      invariant forall a, b :: 0 <= a < i && a < b < |outputs| ==> outputs[a].artifact.id != outputs[b].artifact.id
    {
      if j :| 0 <= j < |flow.workflowInputs| && flow.workflowInputs[j].id == outputs[i].artifact.id {
        return Err(WorkflowInputProducedByTask(outputs[i].artifact.id));
      }
      if j :| i < j < |outputs| && outputs[j].artifact.id == outputs[i].artifact.id {
        return Err(DuplicateArtifactProducer(outputs[i].artifact.id));
      }
    }
    return Ok(());
  }

  // The first output of a task at or after a position.
  function NextOutput(outputs: seq<TaskOutput>, task: TaskId, from: nat): (r: Option<nat>)
    requires from <= |outputs|
    ensures r.Some? ==> from <= r.value < |outputs| && outputs[r.value].producer == task
    ensures forall j :: from <= j < (if r.Some? then r.value else |outputs|) ==> outputs[j].producer != task
    decreases |outputs| - from
  {
    if from == |outputs| then None
    else if outputs[from].producer == task then Some(from)
    else NextOutput(outputs, task, from + 1)
  }

  method ValidateContract(graph: Graph, flow: Flow, n: nat) returns (r: Result<(), FlowError>)
    requires n < |graph.nodes|
    ensures r.Ok? <==> ContractMet(graph.nodes[n], flow.taskOutputs)
    ensures r.Err? ==> FlowErrorMeans(graph, flow, r.error)
  {
    var node, outputs := graph.nodes[n], flow.taskOutputs;
    var first := NextOutput(outputs, node.id, 0);
    if first.None? {
      return Err(MissingTaskOutput(node.id));
    }
    var second := NextOutput(outputs, node.id, first.value + 1);
    if second.Some? {
      return Err(DuplicateTaskOutput(node.id));
    }
    var output := outputs[first.value];
    if output.artifact.kind != node.outputKind {
      return Err(TaskOutputKindMismatch(node.id, node.outputKind, output.artifact.kind));
    }
    return Ok(());
  }

  method ValidateContracts(graph: Graph, flow: Flow) returns (r: Result<(), FlowError>)
    ensures r.Ok? <==> ContractsMet(graph, flow)
    ensures r.Err? ==> FlowErrorMeans(graph, flow, r.error)
  {
    for n := 0 to |graph.nodes|
      invariant forall a :: 0 <= a < n ==> ContractMet(graph.nodes[a], flow.taskOutputs)
    {
      var _ :- ValidateContract(graph, flow, n);
    }
    return Ok(());
  }

  method ValidateSource(graph: Graph, flow: Flow, input: TaskInput) returns (r: Result<(), FlowError>)
    ensures r.Ok? <==> SourceOk(graph, flow, input)
    ensures r.Err? ==> SourceErrorMeans(graph, flow, input, r.error)
  {
    var source := FindInput(flow.workflowInputs, input.artifact.id);
    if source.Some? {
      if source.value != input.artifact {
        return Err(ArtifactReferenceMismatch(source.value, input.artifact));
      }
      return Ok(());
    }
    var output := FindOutput(flow.taskOutputs, input.artifact.id);
    if output.None? {
      return Err(UnknownArtifact(input.artifact.id));
    }
    if output.value.artifact != input.artifact {
      return Err(ArtifactReferenceMismatch(output.value.artifact, input.artifact));
    }
    if output.value.producer == input.consumer {
      return Err(SelfArtifactConsumption(input.consumer, input.artifact.id));
    }
    if TaskDependency(output.value.producer, input.consumer) !in graph.dependencies {
      return Err(MissingArtifactDependency(output.value.producer, input.consumer, input.artifact.id));
    }
    return Ok(());
  }

  method ValidateSources(graph: Graph, flow: Flow) returns (r: Result<(), FlowError>)
    ensures r.Ok? <==> SourcesOk(graph, flow)
    ensures r.Err? ==> FlowErrorMeans(graph, flow, r.error)
  {
    var inputs := flow.taskInputs;
    for i := 0 to |inputs|
      invariant forall a, b :: 0 <= a < i && a < b < |inputs| ==> inputs[a] != inputs[b]
      invariant forall a :: 0 <= a < i ==> SourceOk(graph, flow, inputs[a])
    {
      if j :| i < j < |inputs| && inputs[j] == inputs[i] {
        return Err(DuplicateTaskArtifactInput(inputs[i]));
      }
      var _ :- ValidateSource(graph, flow, inputs[i]);
    }
    return Ok(());
  }

  // validate_artifact_flow.
  method ValidateArtifactFlow(graph: Graph, flow: Flow) returns (r: Result<(), FlowError>)
    ensures r.Ok? <==> FlowOk(graph, flow)
    ensures r.Err? ==> FlowErrorMeans(graph, flow, r.error)
  {
    hide TasksKnown, InputsUnique, OutputsUnique, ContractsMet, SourcesOk;
    var _ :- ValidateTasks(graph, flow);
    var _ :- ValidateInputs(flow.workflowInputs);
    var _ :- ValidateOutputs(graph, flow);
    var _ :- ValidateContracts(graph, flow);
    r := ValidateSources(graph, flow);
  }

  // ----- What an accepted flow guarantees -----

  // Every produced artifact a task consumes was produced by a different task that must
  // have succeeded first: in any order that respects the dependencies, data flows forward.
  lemma DataFlowsForward(graph: Graph, flow: Flow, order: seq<TaskId>, i: nat, q: nat)
    requires FlowOk(graph, flow) && Ordered(graph.dependencies, order)
    requires i < |flow.taskInputs| && q < |order| && order[q] == flow.taskInputs[i].consumer
    requires FindInput(flow.workflowInputs, flow.taskInputs[i].artifact.id).None?
    ensures exists o :: 0 <= o < |flow.taskOutputs| && flow.taskOutputs[o].artifact == flow.taskInputs[i].artifact
                        && flow.taskOutputs[o].producer in order[..q]
  {
    var input := flow.taskInputs[i];
    assert SourceOk(graph, flow, input);
    var output := FindOutput(flow.taskOutputs, input.artifact.id).value;
    var o :| 0 <= o < |flow.taskOutputs| && flow.taskOutputs[o] == output;
  }
}
