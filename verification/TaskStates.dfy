// The retrying task state table (TaskStateTable in task-graph/src/lib.rs): its
// transitions, blocked propagation, and why a validated graph cannot deadlock.
module TaskStates {
  import opened Common
  import opened TaskGraph

  datatype TaskState = TaskState(status: TaskStatus, attempts: nat)

  type States = seq<TaskState>

  predicate Unsuccessful(status: TaskStatus) {
    status.Exhausted? || status.Cancelled? || status.Blocked?
  }

  // ----- Asking about prerequisites -----

  // prerequisites_succeeded over the remaining edges.
  function SucceededVerdict(nodes: seq<TaskNode>, states: States, id: TaskId, edges: seq<TaskDependency>): Outcome<bool> {
    if edges == [] then Ok(true)
    else if edges[0].dependent != id then SucceededVerdict(nodes, states, id, edges[1..])
    else
      var i := IndexOf(nodes, edges[0].prerequisite);
      if i.None? then Err(UnknownTask(edges[0].prerequisite))
      else if i.value >= |states| then Err(StateLengthMismatch(|nodes|, |states|))
      else if states[i.value].status != Succeeded then Ok(false)
      else SucceededVerdict(nodes, states, id, edges[1..])
  }

  // has_unsuccessful_prerequisite over the remaining edges.
  function UnsuccessfulVerdict(nodes: seq<TaskNode>, states: States, id: TaskId, edges: seq<TaskDependency>): Outcome<bool> {
    if edges == [] then Ok(false)
    else if edges[0].dependent != id then UnsuccessfulVerdict(nodes, states, id, edges[1..])
    else
      var i := IndexOf(nodes, edges[0].prerequisite);
      if i.None? then Err(UnknownTask(edges[0].prerequisite))
      else if i.value >= |states| then Err(StateLengthMismatch(|nodes|, |states|))
      else if Unsuccessful(states[i.value].status) then Ok(true)
      else UnsuccessfulVerdict(nodes, states, id, edges[1..])
  }

  // The graph and table agree, as `new` checks and validation establishes.
  ghost predicate Aligned(graph: Graph, states: States) {
    Structured(graph) && |states| == |graph.nodes|
  }

  // The status of a known task.
  ghost function StatusOf(graph: Graph, states: States, id: TaskId): TaskStatus
    requires Aligned(graph, states) && Known(graph.nodes, id)
  {
    states[IndexOf(graph.nodes, id).value].status
  }

  ghost predicate AllSucceeded(graph: Graph, states: States, id: TaskId)
    requires Aligned(graph, states)
  {
    forall e :: e in graph.dependencies && e.dependent == id ==> Known(graph.nodes, e.prerequisite) && StatusOf(graph, states, e.prerequisite) == Succeeded
  }

  ghost predicate SomeUnsuccessful(graph: Graph, states: States, id: TaskId)
    requires Aligned(graph, states)
  {
    exists e :: e in graph.dependencies && e.dependent == id && Known(graph.nodes, e.prerequisite) && Unsuccessful(StatusOf(graph, states, e.prerequisite))
  }

  lemma EdgeKnown(graph: Graph, e: TaskDependency)
    requires Structured(graph) && e in graph.dependencies
    ensures Known(graph.nodes, e.prerequisite) && Known(graph.nodes, e.dependent) && e.prerequisite != e.dependent
  {
    var k :| 0 <= k < |graph.dependencies| && graph.dependencies[k] == e;
  }

  // On an aligned table the scans mean what their names say.
  lemma {:induction false} SucceededMeans(graph: Graph, states: States, id: TaskId, edges: seq<TaskDependency>)
    requires Aligned(graph, states)
    requires forall e :: e in edges ==> e in graph.dependencies
    ensures SucceededVerdict(graph.nodes, states, id, edges)
            == Ok(forall e :: e in edges && e.dependent == id ==> Known(graph.nodes, e.prerequisite) && StatusOf(graph, states, e.prerequisite) == Succeeded)
  {
    hide IndexOf, EdgesDistinct, UniqueIds;
    if edges != [] {
      EdgeKnown(graph, edges[0]);
      IndexFound(graph.nodes, edges[0].prerequisite);
      SucceededMeans(graph, states, id, edges[1..]);
      assert edges == [edges[0]] + edges[1..];
    }
  }

  lemma {:induction false} UnsuccessfulMeans(graph: Graph, states: States, id: TaskId, edges: seq<TaskDependency>)
    requires Aligned(graph, states)
    requires forall e :: e in edges ==> e in graph.dependencies
    ensures UnsuccessfulVerdict(graph.nodes, states, id, edges)
            == Ok(exists e :: e in edges && e.dependent == id && Known(graph.nodes, e.prerequisite) && Unsuccessful(StatusOf(graph, states, e.prerequisite)))
  {
    hide IndexOf, EdgesDistinct, UniqueIds;
    if edges != [] {
      EdgeKnown(graph, edges[0]);
      IndexFound(graph.nodes, edges[0].prerequisite);
      UnsuccessfulMeans(graph, states, id, edges[1..]);
      assert edges == [edges[0]] + edges[1..];
    }
  }

  // ----- The transitions as functions -----

  datatype Step<T> = Step(states: States, result: Outcome<T>)

  function StartTask(graph: Graph, states: States, id: TaskId): Step<TaskAttempt> {
    var i := IndexOf(graph.nodes, id);
    if i.None? || i.value >= |states| then Step(states, Err(UnknownTask(id)))
    else
      var current := states[i.value];
      var ready := SucceededVerdict(graph.nodes, states, id, graph.dependencies);
      if !current.status.Pending? && !current.status.Failed? then Step(states, Err(InvalidTransition(id, current.status)))
      else if ready.Err? then Step(states, Err(ready.error))
      else if !ready.value then Step(states, Err(InvalidTransition(id, current.status)))
      else if current.attempts >= graph.nodes[i.value].maximumAttempts then Step(states, Err(AttemptLimitReached(id)))
      else
        var number: nat := Min(U16_MAX, current.attempts + 1);
        Step(states[i.value := TaskState(Running, number)], Ok(TaskAttempt(id, number)))
  }

  // validate_attempt: the index of a running task whose current attempt is this one.
  function CheckAttempt(graph: Graph, states: States, attempt: TaskAttempt): (r: Outcome<nat>)
    ensures r.Ok? ==>
      && r.value < |states| && r.value < |graph.nodes| && IndexOf(graph.nodes, attempt.task) == Some(r.value)
      && states[r.value] == TaskState(Running, attempt.number) && attempt.number != 0
  {
    var i := IndexOf(graph.nodes, attempt.task);
    if i.None? || i.value >= |states| then Err(UnknownTask(attempt.task))
    else
      var state := states[i.value];
      var active := if state.attempts == 0 then None else Some(TaskAttempt(attempt.task, state.attempts));
      if !state.status.Running? || active != Some(attempt) then Err(InvalidAttempt(attempt, active, state.status))
      else Ok(i.value)
  }

  function SucceedTask(graph: Graph, states: States, attempt: TaskAttempt): Step<()> {
    var i := CheckAttempt(graph, states, attempt);
    if i.Err? then Step(states, Err(i.error))
    else Step(states[i.value := states[i.value].(status := Succeeded)], Ok(()))
  }

  function FailTask(graph: Graph, states: States, attempt: TaskAttempt): Step<()> {
    var i := CheckAttempt(graph, states, attempt);
    if i.Err? then Step(states, Err(i.error))
    else
      var spent := states[i.value].attempts >= graph.nodes[i.value].maximumAttempts;
      Step(states[i.value := states[i.value].(status := if spent then Exhausted else Failed)], Ok(()))
  }

  function CancelTask(graph: Graph, states: States, id: TaskId): Step<()> {
    var i := IndexOf(graph.nodes, id);
    if i.None? || i.value >= |states| then Step(states, Err(UnknownTask(id)))
    else
      var status := states[i.value].status;
      if status.Pending? || status.Failed? || status.Running?
      then Step(states[i.value := states[i.value].(status := Cancelled)], Ok(()))
      else Step(states, Err(InvalidTransition(id, status)))
  }

  // ----- Blocked propagation -----

  // A walk from an unsuccessful task through pending tasks.
  ghost predicate DoomingWalk(graph: Graph, states: States, walk: seq<TaskId>)
    requires Aligned(graph, states)
  {
    && |walk| >= 2
    && IsWalk(graph.dependencies, walk)
    && (forall k :: 0 <= k < |walk| ==> Known(graph.nodes, walk[k]))
    && Unsuccessful(StatusOf(graph, states, walk[0]))
    && (forall k :: 0 < k < |walk| ==> StatusOf(graph, states, walk[k]) == Pending)
  }

  // A pending task that some unsuccessful task reaches through pending ones.
  ghost predicate Doomed(graph: Graph, states: States, id: TaskId)
    requires Aligned(graph, states)
  {
    exists walk :: DoomingWalk(graph, states, walk) && walk[|walk| - 1] == id
  }

  // propagate_blocked's effect, stated without its sweeps.
  ghost function Propagate(graph: Graph, states: States): (r: States)
    requires Aligned(graph, states)
    ensures |r| == |states|
  {
    seq(|states|, i requires 0 <= i < |states| =>
      if Doomed(graph, states, graph.nodes[i].id) then states[i].(status := Blocked) else states[i])
  }

  // ----- Invariant of every run -----

  ghost predicate EntryOk(graph: Graph, states: States, i: nat)
    requires Aligned(graph, states) && i < |states|
  {
    var state, maximum, id := states[i], graph.nodes[i].maximumAttempts, graph.nodes[i].id;
    && state.attempts <= maximum
    && (state.status.Pending? || state.status.Blocked? ==> state.attempts == 0)
    && (state.status.Failed? ==> 0 < state.attempts < maximum)
    && (state.status.Exhausted? ==> state.attempts == maximum)
    && (state.status.Running? || state.status.Succeeded? ==> 0 < state.attempts)
    && (state.status.Running? || state.status.Succeeded? || state.status.Failed? || state.status.Exhausted? ==> AllSucceeded(graph, states, id))
    && (state.status.Blocked? ==> SomeUnsuccessful(graph, states, id))
  }

  ghost predicate TableOk(graph: Graph, states: States) {
    Aligned(graph, states) && forall i :: 0 <= i < |states| ==> EntryOk(graph, states, i)
  }

  // The one-entry transitions the operations make.
  ghost predicate Allowed(graph: Graph, states: States, i: nat, next: TaskState)
    requires Aligned(graph, states) && i < |states|
  {
    var state, maximum, id := states[i], graph.nodes[i].maximumAttempts, graph.nodes[i].id;
    match next.status
    case Pending => false
    case Running => (state.status.Pending? || state.status.Failed?) && state.attempts < maximum && next.attempts == state.attempts + 1 && AllSucceeded(graph, states, id)
    case Succeeded => state.status.Running? && next.attempts == state.attempts
    case Failed => state.status.Running? && next.attempts == state.attempts < maximum
    case Exhausted => state.status.Running? && next.attempts == state.attempts >= maximum
    case Cancelled => (state.status.Pending? || state.status.Failed? || state.status.Running?) && next.attempts == state.attempts
    case Blocked => state.status.Pending? && next.attempts == state.attempts && SomeUnsuccessful(graph, states, id)
  }

  // Success and every unsuccessful end are final.
  lemma FinalKept(graph: Graph, states: States, i: nat, next: TaskState, id: TaskId)
    requires Aligned(graph, states) && i < |states| && Allowed(graph, states, i, next) && Known(graph.nodes, id)
    ensures Aligned(graph, states[i := next])
    ensures StatusOf(graph, states, id) == Succeeded ==> StatusOf(graph, states[i := next], id) == Succeeded
    ensures Unsuccessful(StatusOf(graph, states, id)) ==> StatusOf(graph, states[i := next], id) == StatusOf(graph, states, id)
  {
    hide AllSucceeded, SomeUnsuccessful, Structured, IndexOf;
  }

  lemma TransitionKeeps(graph: Graph, states: States, i: nat, next: TaskState)
    requires TableOk(graph, states) && i < |states| && Allowed(graph, states, i, next)
    ensures TableOk(graph, states[i := next])
  {
    hide Structured, IndexOf, Known;
    var states' := states[i := next];
    forall id
      ensures AllSucceeded(graph, states, id) ==> AllSucceeded(graph, states', id)
      ensures SomeUnsuccessful(graph, states, id) ==> SomeUnsuccessful(graph, states', id)
    {
      PrerequisitesKept(graph, states, i, next, id);
    }
    hide AllSucceeded, SomeUnsuccessful;
    forall j | 0 <= j < |states'|
      ensures EntryOk(graph, states', j)
    {
      assert EntryOk(graph, states, j);
    }
  }

  lemma PrerequisitesKept(graph: Graph, states: States, i: nat, next: TaskState, id: TaskId)
    requires Aligned(graph, states) && i < |states| && Allowed(graph, states, i, next)
    ensures AllSucceeded(graph, states, id) ==> AllSucceeded(graph, states[i := next], id)
    ensures SomeUnsuccessful(graph, states, id) ==> SomeUnsuccessful(graph, states[i := next], id)
  {
    hide Structured, IndexOf, Allowed, StatusOf;
    var states' := states[i := next];
    forall e | e in graph.dependencies && e.dependent == id
      ensures Known(graph.nodes, e.prerequisite)
      ensures StatusOf(graph, states, e.prerequisite) == Succeeded ==> StatusOf(graph, states', e.prerequisite) == Succeeded
      ensures Unsuccessful(StatusOf(graph, states, e.prerequisite)) ==> StatusOf(graph, states', e.prerequisite) == StatusOf(graph, states, e.prerequisite)
    {
      EdgeKnown(graph, e);
      FinalKept(graph, states, i, next, e.prerequisite);
    }
  }

  // ----- Every operation keeps the table -----

  lemma StartKeeps(graph: Graph, states: States, id: TaskId)
    requires TableOk(graph, states)
    ensures TableOk(graph, StartTask(graph, states, id).states)
  {
    hide Structured, AllSucceeded, SomeUnsuccessful, IsWalk;
    var i := IndexOf(graph.nodes, id);
    if i.Some? {
      SucceededMeans(graph, states, id, graph.dependencies);
      assert EntryOk(graph, states, i.value);
      StartAllowed(graph, states, id);
      var s := StartTask(graph, states, id);
      if s.result.Ok? {
        TransitionKeeps(graph, states, i.value, s.states[i.value]);
      }
    }
  }

  lemma StartAllowed(graph: Graph, states: States, id: TaskId)
    requires TableOk(graph, states) && IndexOf(graph.nodes, id).Some?
    ensures var s, i := StartTask(graph, states, id), IndexOf(graph.nodes, id).value;
            s.result.Ok? ==> Allowed(graph, states, i, s.states[i]) && s.states == states[i := s.states[i]]
  {
    hide EntryOk, IndexOf, Structured;
    SucceededMeans(graph, states, id, graph.dependencies);
  }

  lemma AttemptsKeep(graph: Graph, states: States, attempt: TaskAttempt)
    requires TableOk(graph, states)
    ensures TableOk(graph, SucceedTask(graph, states, attempt).states)
    ensures TableOk(graph, FailTask(graph, states, attempt).states)
  {
    hide Structured, AllSucceeded, SomeUnsuccessful, IndexOf;
    var i := CheckAttempt(graph, states, attempt);
    if i.Ok? {
      assert EntryOk(graph, states, i.value);
      TransitionKeeps(graph, states, i.value, SucceedTask(graph, states, attempt).states[i.value]);
      TransitionKeeps(graph, states, i.value, FailTask(graph, states, attempt).states[i.value]);
    }
  }

  lemma CancelKeeps(graph: Graph, states: States, id: TaskId)
    requires TableOk(graph, states)
    ensures TableOk(graph, CancelTask(graph, states, id).states)
  {
    hide Structured, AllSucceeded, SomeUnsuccessful, IndexOf;
    var i := IndexOf(graph.nodes, id);
    if i.Some? && CancelTask(graph, states, id).result.Ok? {
      IndexFound(graph.nodes, id);
      TransitionKeeps(graph, states, i.value, CancelTask(graph, states, id).states[i.value]);
    }
  }

  // ----- What propagation means -----

  lemma StatusAt(graph: Graph, states: States, i: nat)
    requires Aligned(graph, states) && i < |states|
    ensures Known(graph.nodes, graph.nodes[i].id) && IndexOf(graph.nodes, graph.nodes[i].id) == Some(i)
    ensures StatusOf(graph, states, graph.nodes[i].id) == states[i].status
  {
    UniqueIndex(graph, i, graph.nodes[i].id);
  }

  lemma PropagatedStatus(graph: Graph, states: States, id: TaskId)
    requires Aligned(graph, states) && Known(graph.nodes, id)
    ensures Aligned(graph, Propagate(graph, states))
    ensures StatusOf(graph, Propagate(graph, states), id)
            == if Doomed(graph, states, id) then Blocked else StatusOf(graph, states, id)
  {
    hide Doomed, Structured;
    IndexFound(graph.nodes, id);
  }

  // The last step of a dooming walk.
  lemma DoomStep(graph: Graph, states: States, id: TaskId) returns (p: TaskId)
    requires Aligned(graph, states) && Doomed(graph, states, id)
    ensures Known(graph.nodes, id) && Known(graph.nodes, p) && TaskDependency(p, id) in graph.dependencies
    ensures StatusOf(graph, states, id) == Pending
    ensures Unsuccessful(StatusOf(graph, states, p)) || Doomed(graph, states, p)
  {
    hide Structured, IndexOf, Known;
    var walk :| DoomingWalk(graph, states, walk) && walk[|walk| - 1] == id;
    p := walk[|walk| - 2];
    if |walk| > 2 {
      var shorter := walk[..|walk| - 1];
      assert DoomingWalk(graph, states, shorter) && shorter[|shorter| - 1] == p;
    }
  }

  // A pending task behind an unsuccessful or doomed one is doomed.
  lemma Dooms(graph: Graph, states: States, e: TaskDependency)
    requires Aligned(graph, states) && e in graph.dependencies
    requires Known(graph.nodes, e.dependent) && StatusOf(graph, states, e.dependent) == Pending
    requires Known(graph.nodes, e.prerequisite)
    requires Unsuccessful(StatusOf(graph, states, e.prerequisite)) || Doomed(graph, states, e.prerequisite)
    ensures Doomed(graph, states, e.dependent)
  {
    hide Structured, IndexOf, Known;
    if Unsuccessful(StatusOf(graph, states, e.prerequisite)) {
      var walk := [e.prerequisite, e.dependent];
      assert DoomingWalk(graph, states, walk) && walk[|walk| - 1] == e.dependent;
    } else {
      var walk :| DoomingWalk(graph, states, walk) && walk[|walk| - 1] == e.prerequisite;
      var longer := walk + [e.dependent];
      assert DoomingWalk(graph, states, longer) && longer[|longer| - 1] == e.dependent;
    }
  }

  // Nothing pending waits for an unsuccessful task any more.
  ghost predicate Settled(graph: Graph, states: States)
    requires Aligned(graph, states)
  {
    forall i :: 0 <= i < |states| && states[i].status == Pending ==> !SomeUnsuccessful(graph, states, graph.nodes[i].id)
  }

  lemma PropagateSettles(graph: Graph, states: States)
    requires Aligned(graph, states)
    ensures Aligned(graph, Propagate(graph, states)) && Settled(graph, Propagate(graph, states))
  {
    hide Structured, IndexOf, Known, Doomed, StatusOf;
    var next := Propagate(graph, states);
    forall i | 0 <= i < |next| && next[i].status == Pending
      ensures !SomeUnsuccessful(graph, next, graph.nodes[i].id)
    {
      var id := graph.nodes[i].id;
      StatusAt(graph, states, i);
      forall e | e in graph.dependencies && e.dependent == id && Known(graph.nodes, e.prerequisite)
        ensures !Unsuccessful(StatusOf(graph, next, e.prerequisite))
      {
        PropagatedStatus(graph, states, e.prerequisite);
        if Unsuccessful(StatusOf(graph, next, e.prerequisite)) {
          Dooms(graph, states, e);
        }
      }
    }
  }

  lemma PropagateKeeps(graph: Graph, states: States)
    requires TableOk(graph, states)
    ensures TableOk(graph, Propagate(graph, states))
  {
    hide Structured, IndexOf, Known, Doomed, StatusOf, AllSucceeded, SomeUnsuccessful;
    var next := Propagate(graph, states);
    forall i | 0 <= i < |next|
      ensures EntryOk(graph, next, i)
    {
      assert EntryOk(graph, states, i);
      StatusAt(graph, states, i);
      PropagateKeepsPrerequisites(graph, states, graph.nodes[i].id);
      if Doomed(graph, states, graph.nodes[i].id) {
        BlockedHasCause(graph, states, graph.nodes[i].id);
      }
    }
  }

  lemma PropagateKeepsPrerequisites(graph: Graph, states: States, id: TaskId)
    requires Aligned(graph, states)
    ensures AllSucceeded(graph, states, id) ==> AllSucceeded(graph, Propagate(graph, states), id)
    ensures SomeUnsuccessful(graph, states, id) ==> SomeUnsuccessful(graph, Propagate(graph, states), id)
  {
    hide Structured, IndexOf, StatusOf, Doomed, Known, Propagate;
    forall e | e in graph.dependencies && e.dependent == id
      ensures Known(graph.nodes, e.prerequisite)
      ensures StatusOf(graph, Propagate(graph, states), e.prerequisite)
              == if Doomed(graph, states, e.prerequisite) then Blocked else StatusOf(graph, states, e.prerequisite)
      ensures Doomed(graph, states, e.prerequisite) ==> StatusOf(graph, states, e.prerequisite) == Pending
    {
      EdgeKnown(graph, e);
      PropagatedStatus(graph, states, e.prerequisite);
      if Doomed(graph, states, e.prerequisite) {
        var p := DoomStep(graph, states, e.prerequisite);
      }
    }
  }

  lemma BlockedHasCause(graph: Graph, states: States, id: TaskId)
    requires Aligned(graph, states) && Doomed(graph, states, id)
    ensures Known(graph.nodes, id) && StatusOf(graph, states, id) == Pending
    ensures SomeUnsuccessful(graph, Propagate(graph, states), id)
  {
    hide Structured, IndexOf, StatusOf, Doomed, Known, Propagate;
    var p := DoomStep(graph, states, id);
    PropagatedStatus(graph, states, p);
    if Doomed(graph, states, p) {
      var _ := DoomStep(graph, states, p);
    }
    assert TaskDependency(p, id) in graph.dependencies;
  }

  // ----- No deadlock -----

  // ready_tasks' test for one node.
  ghost predicate Ready(graph: Graph, states: States, i: nat)
    requires Aligned(graph, states) && i < |states|
  {
    && (states[i].status.Pending? || states[i].status.Failed?)
    && AllSucceeded(graph, states, graph.nodes[i].id)
    && states[i].attempts < graph.nodes[i].maximumAttempts
  }

  ghost predicate Terminal(status: TaskStatus) {
    status.Succeeded? || Unsuccessful(status)
  }

  // In an acyclic graph, once blocking has settled: if nothing runs and nothing is
  // ready, every task has ended.
  lemma NoDeadlock(graph: Graph, states: States)
    requires Acyclic(graph.dependencies) && TableOk(graph, states) && Settled(graph, states)
    requires forall i :: 0 <= i < |states| ==> !states[i].status.Running? && !Ready(graph, states, i)
    ensures forall i :: 0 <= i < |states| ==> Terminal(states[i].status)
  {
    hide Acyclic, IsStuck, Structured, IndexOf, Known, AllSucceeded, SomeUnsuccessful;
    forall i | 0 <= i < |states|
      ensures !states[i].status.Failed?
    {
      assert EntryOk(graph, states, i);
      assert !Ready(graph, states, i);
    }
    var waiting := set i | 0 <= i < |states| && states[i].status.Pending? :: graph.nodes[i].id;
    assert forall i :: 0 <= i < |states| && states[i].status.Pending? ==> graph.nodes[i].id in waiting;
    if waiting != {} {
      forall id | id in waiting
        ensures HasPredecessor(graph.dependencies, waiting, id)
      {
        var i :| 0 <= i < |states| && states[i].status.Pending? && graph.nodes[i].id == id;
        var p := WaitsFor(graph, states, i);
        assert graph.nodes[p].id in waiting;
        assert TaskDependency(graph.nodes[p].id, id) in graph.dependencies;
      }
      assert IsStuck(graph.dependencies, waiting) by {
        StuckByCases(graph.dependencies, waiting);
      }
      StuckMeansCycle(graph.dependencies, waiting);
    }
  }

  lemma StuckByCases(dependencies: seq<TaskDependency>, stuck: set<TaskId>)
    requires forall id :: id in stuck ==> HasPredecessor(dependencies, stuck, id)
    ensures IsStuck(dependencies, stuck)
  {
  }

  // A pending task that is not ready waits for a pending one.
  lemma WaitsFor(graph: Graph, states: States, i: nat) returns (p: nat)
    requires TableOk(graph, states) && Settled(graph, states)
    requires forall j :: 0 <= j < |states| ==> !states[j].status.Running? && !states[j].status.Failed?
    requires i < |states| && states[i].status.Pending? && !Ready(graph, states, i)
    ensures p < |states| && states[p].status.Pending? && TaskDependency(graph.nodes[p].id, graph.nodes[i].id) in graph.dependencies
  {
    hide Structured, IndexOf;
    assert EntryOk(graph, states, i);
    assert !SomeUnsuccessful(graph, states, graph.nodes[i].id);
    var e :| e in graph.dependencies && e.dependent == graph.nodes[i].id
      && !(Known(graph.nodes, e.prerequisite) && StatusOf(graph, states, e.prerequisite) == Succeeded);
    EdgeKnown(graph, e);
    IndexFound(graph.nodes, e.prerequisite);
    p := IndexOf(graph.nodes, e.prerequisite).value;
    assert !Unsuccessful(StatusOf(graph, states, e.prerequisite));
  }

  // ----- Whole runs -----

  datatype Operation = Start(task: TaskId) | Succeed(attempt: TaskAttempt) | Fail(attempt: TaskAttempt) | Cancel(task: TaskId) | PropagateBlocked

  ghost function Apply(graph: Graph, states: States, operation: Operation): States
    requires Aligned(graph, states)
  {
    match operation
    case Start(id) => StartTask(graph, states, id).states
    case Succeed(attempt) => SucceedTask(graph, states, attempt).states
    case Fail(attempt) => FailTask(graph, states, attempt).states
    case Cancel(id) => CancelTask(graph, states, id).states
    case PropagateBlocked => Propagate(graph, states)
  }

  lemma ApplyKeeps(graph: Graph, states: States, operation: Operation)
    requires TableOk(graph, states)
    ensures TableOk(graph, Apply(graph, states, operation))
  {
    hide TableOk, StartTask, SucceedTask, FailTask, CancelTask, Propagate;
    match operation
    case Start(id) => StartKeeps(graph, states, id);
    case Succeed(attempt) => AttemptsKeep(graph, states, attempt);
    case Fail(attempt) => AttemptsKeep(graph, states, attempt);
    case Cancel(id) => CancelKeeps(graph, states, id);
    case PropagateBlocked => PropagateKeeps(graph, states);
  }

  // The table after a run of operations, whatever each of them answered.
  ghost function Run(graph: Graph, operations: seq<Operation>): (r: States)
    requires Structured(graph)
    ensures TableOk(graph, r)
  {
    if operations == [] then
      Fresh(graph);
      Default(graph)
    else
      var before := Run(graph, operations[..|operations| - 1]);
      var last := operations[|operations| - 1];
      ApplyKeeps(graph, before, last);
      Apply(graph, before, last)
  }

  function Default(graph: Graph): States {
    seq(|graph.nodes|, _ => TaskState(Pending, 0))
  }

  lemma Fresh(graph: Graph)
    requires Structured(graph)
    ensures TableOk(graph, Default(graph))
  {
  }

  // After any run followed by propagation on a graph that validate_graph accepted: if no
  // task is running and none is ready, every task has ended.
  lemma RunNeverDeadlocks(graph: Graph, operations: seq<Operation>)
    requires Structured(graph) && Acyclic(graph.dependencies)
    ensures var states := Run(graph, operations + [PropagateBlocked]);
            (forall i :: 0 <= i < |states| ==> !states[i].status.Running? && !Ready(graph, states, i))
            ==> forall i :: 0 <= i < |states| ==> Terminal(states[i].status)
  {
    hide Acyclic, Structured, Propagate, Ready, Settled;
    var all := operations + [PropagateBlocked];
    assert all[..|all| - 1] == operations;
    var before := Run(graph, operations);
    PropagateSettles(graph, before);
    var states := Run(graph, all);
    assert states == Propagate(graph, before);
    if forall i :: 0 <= i < |states| ==> !states[i].status.Running? && !Ready(graph, states, i) {
      NoDeadlock(graph, states);
    }
  }

  // ----- The table object -----

  // How many entries differ.
  ghost function Changed(before: States, after: States): set<nat>
    requires |before| == |after|
  {
    set i | 0 <= i < |before| && before[i] != after[i]
  }

  lemma OneMoreChanged(before: States, after: States, i: nat, next: TaskState)
    requires |before| == |after| && i < |before| && before[i] == after[i] != next
    ensures |Changed(before, after[i := next])| == |Changed(before, after)| + 1
  {
    assert Changed(before, after[i := next]) == Changed(before, after) + {i};
  }

  lemma ChangedBounded(before: States, after: States)
    requires |before| == |after|
    ensures |Changed(before, after)| <= |before|
  {
    Subset(Changed(before, after), Below(|before|));
  }

  lemma {:induction false} Subset(a: set<nat>, b: set<nat>)
    requires a <= b
    ensures |a| <= |b|
  {
    if a != {} {
      var x :| x in a;
      Subset(a - {x}, b - {x});
    }
  }

  // Mid-sweep: every entry is as before, or was pending and doomed and is now blocked.
  ghost predicate PartlyBlocked(graph: Graph, before: States, now: States)
    requires Aligned(graph, before)
  {
    && |now| == |before|
    && forall i :: 0 <= i < |now| ==>
         now[i] == before[i] || (now[i] == before[i].(status := Blocked) && before[i].status.Pending? && Doomed(graph, before, graph.nodes[i].id))
  }

  // An unsuccessful prerequisite mid-sweep dooms its pending dependents.
  lemma SweepBlocks(graph: Graph, before: States, now: States, i: nat)
    requires Aligned(graph, before) && PartlyBlocked(graph, before, now)
    requires i < |now| && now[i].status.Pending? && SomeUnsuccessful(graph, now, graph.nodes[i].id)
    ensures now[i] == before[i] && Doomed(graph, before, graph.nodes[i].id)
    ensures PartlyBlocked(graph, before, now[i := now[i].(status := Blocked)])
  {
    hide Structured, IndexOf, Doomed;
    StatusAt(graph, before, i);
    var e :| e in graph.dependencies && e.dependent == graph.nodes[i].id && Known(graph.nodes, e.prerequisite)
      && Unsuccessful(StatusOf(graph, now, e.prerequisite));
    IndexFound(graph.nodes, e.prerequisite);
    Dooms(graph, before, e);
  }

  // A sweep that changes nothing leaves exactly the doomed tasks blocked.
  lemma SweepDone(graph: Graph, before: States, now: States)
    requires Aligned(graph, before) && PartlyBlocked(graph, before, now) && Settled(graph, now)
    ensures now == Propagate(graph, before)
  {
    hide Structured, IndexOf, Doomed, SomeUnsuccessful, StatusOf;
    forall i | 0 <= i < |now|
      ensures Doomed(graph, before, graph.nodes[i].id) ==> now[i].status == Blocked && before[i].status == Pending
    {
      if Doomed(graph, before, graph.nodes[i].id) {
        StatusAt(graph, before, i);
        StatusAt(graph, now, i);
        var walk := DoomedBy(graph, before, graph.nodes[i].id);
        WalkIsBlocked(graph, before, now, walk);
      }
    }
  }

  lemma DoomedBy(graph: Graph, states: States, id: TaskId) returns (walk: seq<TaskId>)
    requires Aligned(graph, states) && Doomed(graph, states, id)
    ensures DoomingWalk(graph, states, walk) && walk[|walk| - 1] == id && Known(graph.nodes, id)
    ensures StatusOf(graph, states, id) == Pending
  {
    walk :| DoomingWalk(graph, states, walk) && walk[|walk| - 1] == id;
  }

  lemma {:induction false} WalkIsBlocked(graph: Graph, before: States, now: States, walk: seq<TaskId>)
    requires Aligned(graph, before) && PartlyBlocked(graph, before, now) && Settled(graph, now)
    requires DoomingWalk(graph, before, walk)
    ensures Known(graph.nodes, walk[|walk| - 1]) && StatusOf(graph, now, walk[|walk| - 1]) == Blocked
    decreases |walk|
  {
    hide Structured, IndexOf, Doomed;
    var p, id := walk[|walk| - 2], walk[|walk| - 1];
    IndexFound(graph.nodes, p);
    IndexFound(graph.nodes, id);
    var i := IndexOf(graph.nodes, id).value;
    if |walk| > 2 {
      WalkIsBlocked(graph, before, now, walk[..|walk| - 1]);
    }
    assert TaskDependency(p, id) in graph.dependencies;
    assert Unsuccessful(StatusOf(graph, now, p));
    assert SomeUnsuccessful(graph, now, id);
  }

  // The ready tasks among the first n nodes, in node order.
  ghost function ReadyIds(graph: Graph, states: States, n: nat): seq<TaskId>
    requires Aligned(graph, states) && n <= |states|
  {
    if n == 0 then []
    else ReadyIds(graph, states, n - 1) + if Ready(graph, states, n - 1) then [graph.nodes[n - 1].id] else []
  }

  // ----- Any table, whether or not it fits the graph -----

  // The two ways a scan can fail: an edge names a prerequisite that is no task, or the
  // table is shorter than the graph.
  ghost predicate Mismatch(graph: Graph, length: nat, error: TaskGraphError) {
    || (error == StateLengthMismatch(|graph.nodes|, length) && length < |graph.nodes|)
    || (error.UnknownTask? && !Known(graph.nodes, error.task) && exists e :: e in graph.dependencies && e.prerequisite == error.task)
  }

  lemma {:induction false} VerdictErrors(graph: Graph, states: States, id: TaskId, edges: seq<TaskDependency>)
    requires forall e :: e in edges ==> e in graph.dependencies
    ensures var s := SucceededVerdict(graph.nodes, states, id, edges); s.Err? ==> Mismatch(graph, |states|, s.error)
    ensures var u := UnsuccessfulVerdict(graph.nodes, states, id, edges); u.Err? ==> Mismatch(graph, |states|, u.error)
    decreases |edges|
  {
    hide IndexOf;
    if edges != [] {
      VerdictErrors(graph, states, id, edges[1..]);
    }
  }

  lemma MatchedVerdicts(graph: Graph, states: States, id: TaskId)
    requires Aligned(graph, states)
    ensures SucceededVerdict(graph.nodes, states, id, graph.dependencies).Ok? && UnsuccessfulVerdict(graph.nodes, states, id, graph.dependencies).Ok?
  {
    hide Structured;
    SucceededMeans(graph, states, id, graph.dependencies);
    UnsuccessfulMeans(graph, states, id, graph.dependencies);
  }

  // Blocking further tasks never takes an unsuccessful prerequisite back.
  lemma {:induction false} VerdictStays(graph: Graph, states: States, i: nat, id: TaskId, edges: seq<TaskDependency>)
    requires i < |states| && states[i].status.Pending?
    requires UnsuccessfulVerdict(graph.nodes, states, id, edges) == Ok(true)
    ensures UnsuccessfulVerdict(graph.nodes, states[i := states[i].(status := Blocked)], id, edges) == Ok(true)
    decreases |edges|
  {
    if edges[0].dependent != id || !Unsuccessful(states[IndexOf(graph.nodes, edges[0].prerequisite).value].status) {
      VerdictStays(graph, states, i, id, edges[1..]);
    }
  }

  // Only pending tasks with an unsuccessful prerequisite were blocked, and nothing else moved.
  ghost predicate OnlyBlocked(graph: Graph, before: States, now: States) {
    && |now| == |before|
    && forall i :: 0 <= i < |now| && now[i] != before[i] ==>
         && before[i].status.Pending? && now[i] == before[i].(status := Blocked)
         && i < |graph.nodes| && UnsuccessfulVerdict(graph.nodes, now, graph.nodes[i].id, graph.dependencies) == Ok(true)
  }

  lemma BlockOne(graph: Graph, before: States, now: States, i: nat)
    requires OnlyBlocked(graph, before, now) && i < |now| && i < |graph.nodes| && now[i].status.Pending?
    requires UnsuccessfulVerdict(graph.nodes, now, graph.nodes[i].id, graph.dependencies) == Ok(true)
    ensures OnlyBlocked(graph, before, now[i := now[i].(status := Blocked)])
  {
    hide UnsuccessfulVerdict;
    var next := now[i := now[i].(status := Blocked)];
    forall j | 0 <= j < |next| && next[j] != before[j]
      ensures before[j].status.Pending? && next[j] == before[j].(status := Blocked)
      ensures j < |graph.nodes| && UnsuccessfulVerdict(graph.nodes, next, graph.nodes[j].id, graph.dependencies) == Ok(true)
    {
      VerdictStays(graph, now, i, graph.nodes[j].id, graph.dependencies);
    }
  }

  // No pending task is told by the scan to be blocked.
  ghost predicate NoneToBlock(graph: Graph, states: States, n: nat)
    requires n <= |graph.nodes| && n <= |states|
  {
    forall i :: 0 <= i < n && states[i].status.Pending? ==>
      UnsuccessfulVerdict(graph.nodes, states, graph.nodes[i].id, graph.dependencies) == Ok(false)
  }

  lemma NoneToBlockSettles(graph: Graph, states: States)
    requires Aligned(graph, states) && NoneToBlock(graph, states, |graph.nodes|)
    ensures Settled(graph, states)
  {
    hide Structured, SomeUnsuccessful, UnsuccessfulVerdict;
    forall i | 0 <= i < |states| && states[i].status.Pending?
      ensures !SomeUnsuccessful(graph, states, graph.nodes[i].id)
    {
      NotUnsuccessfulNow(graph, states, i);
    }
  }

  // ready_tasks' test for one node of any table.
  predicate ReadyNow(graph: Graph, states: States, i: nat)
    requires i < |graph.nodes| && i < |states|
  {
    && Candidate(states[i])
    && SucceededVerdict(graph.nodes, states, graph.nodes[i].id, graph.dependencies) == Ok(true)
    && states[i].attempts < graph.nodes[i].maximumAttempts
  }

  predicate Candidate(state: TaskState) {
    state.status.Pending? || state.status.Failed?
  }

  // Asking about the prerequisites of the first n nodes fails for no candidate.
  ghost predicate ScansSucceed(graph: Graph, states: States, n: nat)
    requires n <= |graph.nodes|
  {
    forall i :: 0 <= i < n && i < |states| && Candidate(states[i]) ==>
      SucceededVerdict(graph.nodes, states, graph.nodes[i].id, graph.dependencies).Ok?
  }

  ghost function ReadyNowIds(graph: Graph, states: States, n: nat): seq<TaskId>
    requires n <= |graph.nodes| && n <= |states|
  {
    if n == 0 then []
    else ReadyNowIds(graph, states, n - 1) + if ReadyNow(graph, states, n - 1) then [graph.nodes[n - 1].id] else []
  }

  lemma {:induction false} ReadyNowGrows(graph: Graph, states: States, i: nat, n: nat)
    requires i <= n <= |graph.nodes| && n <= |states|
    ensures |ReadyNowIds(graph, states, i)| <= |ReadyNowIds(graph, states, n)|
    decreases n
  {
    hide ReadyNow;
    if i < n {
      ReadyNowGrows(graph, states, i, n - 1);
    }
  }

  // On a matching table that is the declarative list.
  lemma {:induction false} ReadyNowMeans(graph: Graph, states: States, n: nat)
    requires Aligned(graph, states) && n <= |states|
    ensures ReadyNowIds(graph, states, n) == ReadyIds(graph, states, n)
    decreases n
  {
    hide Structured, AllSucceeded, SucceededVerdict;
    if n > 0 {
      ReadyNowMeans(graph, states, n - 1);
      AllSucceededMeans(graph, states, graph.nodes[n - 1].id,
                        SucceededVerdict(graph.nodes, states, graph.nodes[n - 1].id, graph.dependencies));
    }
  }

  class TaskStateTable {
    const states: array<TaskState>

    constructor (states: array<TaskState>)
      ensures this.states == states
    {
      this.states := states;
    }

    // TaskStateTable::new.
    static method Create(graph: Graph, states: array<TaskState>) returns (r: Outcome<TaskStateTable>)
      ensures states.Length != |graph.nodes| ==> r == Err(StateLengthMismatch(|graph.nodes|, states.Length))
      ensures states.Length == |graph.nodes| ==> r.Ok? && r.value.states == states
    {
      if states.Length != |graph.nodes| {
        return Err(StateLengthMismatch(|graph.nodes|, states.Length));
      }
      var table := new TaskStateTable(states);
      return Ok(table);
    }

    method PrerequisitesSucceeded(graph: Graph, id: TaskId) returns (r: Outcome<bool>)
      ensures r == SucceededVerdict(graph.nodes, states[..], id, graph.dependencies)
    {
      var edges := graph.dependencies;
      for k := 0 to |edges|
        invariant SucceededVerdict(graph.nodes, states[..], id, edges) == SucceededVerdict(graph.nodes, states[..], id, edges[k..])
      {
        assert edges[k..][1..] == edges[k + 1..];
        if edges[k].dependent == id {
          var i := IndexOf(graph.nodes, edges[k].prerequisite);
          if i.None? {
            return Err(UnknownTask(edges[k].prerequisite));
          }
          if i.value >= states.Length {
            return Err(StateLengthMismatch(|graph.nodes|, states.Length));
          }
          if states[i.value].status != Succeeded {
            return Ok(false);
          }
        }
      }
      return Ok(true);
    }

    method HasUnsuccessfulPrerequisite(graph: Graph, id: TaskId) returns (r: Outcome<bool>)
      ensures r == UnsuccessfulVerdict(graph.nodes, states[..], id, graph.dependencies)
    {
      var edges := graph.dependencies;
      for k := 0 to |edges|
        invariant UnsuccessfulVerdict(graph.nodes, states[..], id, edges) == UnsuccessfulVerdict(graph.nodes, states[..], id, edges[k..])
      {
        assert edges[k..][1..] == edges[k + 1..];
        if edges[k].dependent == id {
          var i := IndexOf(graph.nodes, edges[k].prerequisite);
          if i.None? {
            return Err(UnknownTask(edges[k].prerequisite));
          }
          if i.value >= states.Length {
            return Err(StateLengthMismatch(|graph.nodes|, states.Length));
          }
          if Unsuccessful(states[i.value].status) {
            return Ok(true);
          }
        }
      }
      return Ok(false);
    }

    method Start(graph: Graph, id: TaskId) returns (r: Outcome<TaskAttempt>)
      modifies states
      ensures Step(states[..], r) == StartTask(graph, old(states[..]), id)
    {
      var i := IndexOf(graph.nodes, id);
      if i.None? || i.value >= states.Length {
        return Err(UnknownTask(id));
      }
      var current := states[i.value];
      if !current.status.Pending? && !current.status.Failed? {
        return Err(InvalidTransition(id, current.status));
      }
      var ready :- PrerequisitesSucceeded(graph, id);
      if !ready {
        return Err(InvalidTransition(id, current.status));
      }
      if current.attempts >= graph.nodes[i.value].maximumAttempts {
        return Err(AttemptLimitReached(id));
      }
      var number: nat := Min(U16_MAX, current.attempts + 1);
      states[i.value] := TaskState(Running, number);
      return Ok(TaskAttempt(id, number));
    }

    method SucceedAttempt(graph: Graph, attempt: TaskAttempt) returns (r: Outcome<()>)
      modifies states
      ensures Step(states[..], r) == SucceedTask(graph, old(states[..]), attempt)
    {
      var i :- CheckAttempt(graph, states[..], attempt);
      states[i] := states[i].(status := Succeeded);
      return Ok(());
    }

    method FailAttempt(graph: Graph, attempt: TaskAttempt) returns (r: Outcome<()>)
      modifies states
      ensures Step(states[..], r) == FailTask(graph, old(states[..]), attempt)
    {
      var i :- CheckAttempt(graph, states[..], attempt);
      var spent := states[i].attempts >= graph.nodes[i].maximumAttempts;
      states[i] := states[i].(status := if spent then Exhausted else Failed);
      return Ok(());
    }

    method CancelOne(graph: Graph, id: TaskId) returns (r: Outcome<()>)
      modifies states
      ensures Step(states[..], r) == CancelTask(graph, old(states[..]), id)
    {
      var i := IndexOf(graph.nodes, id);
      if i.None? || i.value >= states.Length {
        return Err(UnknownTask(id));
      }
      var status := states[i.value].status;
      if status.Pending? || status.Failed? || status.Running? {
        states[i.value] := states[i.value].(status := Cancelled);
        return Ok(());
      }
      return Err(InvalidTransition(id, status));
    }

    // One sweep over the nodes; later nodes already see what earlier ones became.
    method Sweep(graph: Graph, ghost before: States) returns (r: Outcome<nat>)
      requires OnlyBlocked(graph, before, states[..])
      requires Aligned(graph, before) ==> PartlyBlocked(graph, before, states[..])
      modifies states
      ensures OnlyBlocked(graph, before, states[..])
      ensures Aligned(graph, before) ==> PartlyBlocked(graph, before, states[..]) && r.Ok?
      ensures r.Err? ==> Mismatch(graph, states.Length, r.error)
      ensures r.Ok? ==>
        && |graph.nodes| <= states.Length
        && |Changed(before, states[..])| == |Changed(before, old(states[..]))| + r.value
        && (r.value == 0 ==> NoneToBlock(graph, states[..], |graph.nodes|))
    {
      hide Structured, OnlyBlocked, PartlyBlocked, SucceededVerdict, UnsuccessfulVerdict, Changed, Mismatch, NoneToBlock;
      var changed := 0;
      ghost var start := states[..];
      OnlyBlockedLength(graph, before, start);
      NoneYet(graph, start);
      for i := 0 to |graph.nodes|
        invariant OnlyBlocked(graph, before, states[..]) && i <= states.Length
        invariant Aligned(graph, before) ==> PartlyBlocked(graph, before, states[..])
        invariant |Changed(before, states[..])| == |Changed(before, start)| + changed
        invariant changed == 0 ==> states[..] == start && NoneToBlock(graph, start, i)
      {
        if i >= states.Length {
          ShortTable(graph, before, states.Length);
          return Err(StateLengthMismatch(|graph.nodes|, states.Length));
        }
        ghost var now := states[..];
        if changed == 0 {
          OneMoreNode(graph, now, i);
        }
        if states[i].status != Pending {
          continue;
        }
        VerdictErrors(graph, now, graph.nodes[i].id, graph.dependencies);
        if Aligned(graph, before) {
          SameLength(graph, before, now);
          MatchedVerdicts(graph, now, graph.nodes[i].id);
        }
        var unsuccessful :- HasUnsuccessfulPrerequisite(graph, graph.nodes[i].id);
        if unsuccessful {
          if Aligned(graph, before) {
            UnsuccessfulNow(graph, now, i);
            SweepBlocks(graph, before, now, i);
          }
          BlockOne(graph, before, now, i);
          UntouchedSoFar(graph, before, now, i);
          OneMoreChanged(before, now, i, states[i].(status := Blocked));
          states[i] := states[i].(status := Blocked);
          assert states[..] == now[i := now[i].(status := Blocked)];
          changed := changed + 1;
        }
      }
      return Ok(changed);
    }

    // propagate_blocked: it only blocks pending tasks that the scan finds an unsuccessful
    // prerequisite for, until there is none left; it fails only on a table that does not
    // match the graph; and on a matching one it blocks exactly the doomed tasks.
    method PropagateBlocked(graph: Graph) returns (r: Outcome<nat>)
      modifies states
      ensures OnlyBlocked(graph, old(states[..]), states[..])
      ensures r.Err? ==> Mismatch(graph, states.Length, r.error)
      ensures r.Ok? ==>
        && |graph.nodes| <= states.Length
        && NoneToBlock(graph, states[..], |graph.nodes|)
        && r.value == |Changed(old(states[..]), states[..])|
      ensures Aligned(graph, old(states[..])) ==> r.Ok? && states[..] == Propagate(graph, old(states[..]))
    {
      hide Structured, Doomed, Settled, Changed, OnlyBlocked, Mismatch, NoneToBlock, PartlyBlocked, Propagate;
      ghost var before := states[..];
      NothingBlocked(graph, before);
      NoneChanged(before);
      var total := 0;
      while true
        invariant OnlyBlocked(graph, before, states[..])
        invariant Aligned(graph, before) ==> PartlyBlocked(graph, before, states[..])
        invariant total == |Changed(before, states[..])| <= |before|
        decreases |before| - total
      {
        var changed :- Sweep(graph, before);
        ChangedBounded(before, states[..]);
        total := total + changed;
        if changed == 0 {
          if Aligned(graph, before) {
            SameLength(graph, before, states[..]);
            NoneToBlockSettles(graph, states[..]);
            SweepDone(graph, before, states[..]);
          }
          return Ok(total);
        }
      }
    }

    // ready_tasks: the ready ids in node order. It succeeds exactly when the table covers
    // the graph, every scan of a candidate does, and the output holds every ready id.
    method ReadyTasks(graph: Graph, output: array<TaskId>) returns (r: Outcome<nat>)
      modifies output
      ensures states[..] == old(states[..])
      ensures r.Ok? <==>
        && |graph.nodes| <= states.Length
        && ScansSucceed(graph, states[..], |graph.nodes|)
        && |ReadyNowIds(graph, states[..], |graph.nodes|)| <= output.Length
      ensures r.Ok? ==> r.value <= output.Length && output[..r.value] == ReadyNowIds(graph, states[..], |graph.nodes|)
      ensures r.Err? ==> Mismatch(graph, states.Length, r.error) || r.error == GraphCapacity(TaskNodes, output.Length + 1, output.Length)
      ensures Aligned(graph, states[..]) ==>
        var ready := ReadyIds(graph, states[..], |graph.nodes|);
        && (r.Ok? <==> |ready| <= output.Length)
        && (r.Ok? ==> r.value == |ready| && output[..r.value] == ready)
        && (r.Err? ==> r.error == GraphCapacity(TaskNodes, output.Length + 1, output.Length))
    {
      hide Structured, SucceededVerdict, Mismatch, ReadyNow, ReadyNowIds, ReadyIds, ScansSucceed;
      ghost var table := states[..];
      if Aligned(graph, table) {
        ReadyNowMeans(graph, table, |graph.nodes|);
        AllScansSucceed(graph, table);
      }
      NoneScanned(graph, table);
      var written := 0;
      for i := 0 to |graph.nodes|
        invariant i <= states.Length && states[..] == table
        invariant written <= output.Length && output[..written] == ReadyNowIds(graph, table, i)
        invariant ScansSucceed(graph, table, i)
      {
        if i >= states.Length {
          ShortTable(graph, table, states.Length);
          return Err(StateLengthMismatch(|graph.nodes|, states.Length));
        }
        ScanOne(graph, table, i);
        if states[i].status == Pending || states[i].status == Failed {
          var succeeded :- PrerequisitesSucceeded(graph, graph.nodes[i].id);
          if succeeded && states[i].attempts < graph.nodes[i].maximumAttempts {
            if written >= output.Length {
              return Err(GraphCapacity(TaskNodes, written + 1, output.Length));
            }
            output[written] := graph.nodes[i].id;
            written := written + 1;
          }
        }
      }
      return Ok(written);
    }
  }

  lemma NoneScanned(graph: Graph, states: States)
    ensures ScansSucceed(graph, states, 0) && ReadyNowIds(graph, states, 0) == []
  {
  }

  // What the scan of one more node adds, and what it says about the whole table.
  lemma ScanOne(graph: Graph, states: States, i: nat)
    requires i < |graph.nodes| && i < |states| && ScansSucceed(graph, states, i)
    ensures var verdict := SucceededVerdict(graph.nodes, states, graph.nodes[i].id, graph.dependencies);
            var ready := Candidate(states[i]) && verdict == Ok(true) && states[i].attempts < graph.nodes[i].maximumAttempts;
            && (verdict.Err? ==> Mismatch(graph, |states|, verdict.error))
            && (ScansSucceed(graph, states, i + 1) <==> !Candidate(states[i]) || verdict.Ok?)
            && (ScansSucceed(graph, states, |graph.nodes|) ==> ScansSucceed(graph, states, i + 1))
            && ReadyNowIds(graph, states, i + 1) == ReadyNowIds(graph, states, i) + (if ready then [graph.nodes[i].id] else [])
            && (|graph.nodes| <= |states| ==> |ReadyNowIds(graph, states, i + 1)| <= |ReadyNowIds(graph, states, |graph.nodes|)|)
  {
    hide SucceededVerdict, Mismatch;
    VerdictErrors(graph, states, graph.nodes[i].id, graph.dependencies);
    if |graph.nodes| <= |states| {
      ReadyNowGrows(graph, states, i + 1, |graph.nodes|);
    }
  }

  lemma AllScansSucceed(graph: Graph, states: States)
    requires Aligned(graph, states)
    ensures ScansSucceed(graph, states, |graph.nodes|)
  {
    hide Structured, SucceededVerdict;
    forall i | 0 <= i < |graph.nodes|
      ensures SucceededVerdict(graph.nodes, states, graph.nodes[i].id, graph.dependencies).Ok?
    {
      MatchedVerdicts(graph, states, graph.nodes[i].id);
    }
  }

  lemma OnlyBlockedLength(graph: Graph, before: States, now: States)
    requires OnlyBlocked(graph, before, now)
    ensures |now| == |before|
  {
  }

  lemma NothingBlocked(graph: Graph, before: States)
    ensures OnlyBlocked(graph, before, before)
    ensures Aligned(graph, before) ==> PartlyBlocked(graph, before, before)
  {
  }

  lemma NoneYet(graph: Graph, states: States)
    ensures NoneToBlock(graph, states, 0)
  {
  }

  lemma OneMoreNode(graph: Graph, states: States, i: nat)
    requires i < |graph.nodes| && i < |states| && NoneToBlock(graph, states, i)
    ensures !states[i].status.Pending? || UnsuccessfulVerdict(graph.nodes, states, graph.nodes[i].id, graph.dependencies) == Ok(false)
            ==> NoneToBlock(graph, states, i + 1)
  {
    hide UnsuccessfulVerdict;
  }

  lemma ShortTable(graph: Graph, before: States, length: nat)
    requires length < |graph.nodes| && |before| == length
    ensures Mismatch(graph, length, StateLengthMismatch(|graph.nodes|, length)) && !Aligned(graph, before)
  {
  }

  lemma UntouchedSoFar(graph: Graph, before: States, now: States, i: nat)
    requires OnlyBlocked(graph, before, now) && i < |now| && now[i].status.Pending?
    ensures |now| == |before| && now[i] == before[i]
  {
    hide UnsuccessfulVerdict;
  }

  lemma SameLength(graph: Graph, before: States, now: States)
    requires Aligned(graph, before) && PartlyBlocked(graph, before, now)
    ensures |now| == |graph.nodes| == |before| && Aligned(graph, now)
  {
  }

  lemma NoneChanged(before: States)
    ensures |Changed(before, before)| == 0
  {
    assert Changed(before, before) == {};
  }

  lemma UnsuccessfulNow(graph: Graph, now: States, i: nat)
    requires Aligned(graph, now) && i < |now|
    requires UnsuccessfulVerdict(graph.nodes, now, graph.nodes[i].id, graph.dependencies) == Ok(true)
    ensures SomeUnsuccessful(graph, now, graph.nodes[i].id)
  {
    UnsuccessfulMeans(graph, now, graph.nodes[i].id, graph.dependencies);
  }

  lemma NotUnsuccessfulNow(graph: Graph, now: States, i: nat)
    requires Aligned(graph, now) && i < |now|
    requires UnsuccessfulVerdict(graph.nodes, now, graph.nodes[i].id, graph.dependencies) != Ok(true)
    ensures !SomeUnsuccessful(graph, now, graph.nodes[i].id)
  {
    UnsuccessfulMeans(graph, now, graph.nodes[i].id, graph.dependencies);
  }

  lemma AllSucceededMeans(graph: Graph, states: States, id: TaskId, verdict: Outcome<bool>)
    requires Aligned(graph, states) && verdict == SucceededVerdict(graph.nodes, states, id, graph.dependencies)
    ensures verdict == Ok(AllSucceeded(graph, states, id))
  {
    SucceededMeans(graph, states, id, graph.dependencies);
  }
}
