// Task graph validation (task-graph/src/lib.rs): Kahn's algorithm over caller-owned
// arrays, proved to decide exactly whether a graph is well formed and acyclic.
module TaskGraph {
  import opened Common
  import Fairness

  type TaskId = nat

  // NonZeroU16.
  type AttemptLimit = n: nat | 1 <= n <= U16_MAX witness 1

  datatype ArtifactKind = TextKind | SourceCodeKind | DiagnosticsKind | TokensKind | OtherKind(code: nat)

  datatype TaskNode = TaskNode(id: TaskId, maximumAttempts: AttemptLimit, outputKind: ArtifactKind)

  datatype TaskDependency = TaskDependency(prerequisite: TaskId, dependent: TaskId)

  datatype Graph = Graph(nodes: seq<TaskNode>, dependencies: seq<TaskDependency>)

  datatype GraphResource = TaskNodes | TaskEdges

  datatype TaskStatus = Pending | Running | Succeeded | Failed | Exhausted | Cancelled | Blocked

  datatype TaskAttempt = TaskAttempt(task: TaskId, number: nat)

  datatype TaskGraphError =
    | DuplicateTask(task: TaskId)
    | DuplicateDependency(dependency: TaskDependency)
    | UnknownTask(task: TaskId)
    | SelfDependency(task: TaskId)
    | CycleDetected
    | GraphCapacity(resource: GraphResource, required: nat, available: nat)
    | StateLengthMismatch(requiredStates: nat, availableStates: nat)
    | InvalidTransition(task: TaskId, state: TaskStatus)
    | AttemptLimitReached(task: TaskId)
    | InvalidAttempt(attempt: TaskAttempt, active: Option<TaskAttempt>, state: TaskStatus)

  type Outcome<T> = Result<T, TaskGraphError>

  // TaskGraph::node_index: the first node with the id.
  function IndexOf(nodes: seq<TaskNode>, id: TaskId): (r: Option<nat>)
    ensures r.Some? ==> r.value < |nodes| && nodes[r.value].id == id
    ensures r.None? ==> forall i :: 0 <= i < |nodes| ==> nodes[i].id != id
  {
    if nodes == [] then None
    else if nodes[0].id == id then Some(0)
    else
      var rest := IndexOf(nodes[1..], id);
      if rest.None? then None else Some(rest.value + 1)
  }

  // ----- What a good graph is -----

  predicate UniqueIds(nodes: seq<TaskNode>) {
    forall i, j :: 0 <= i < j < |nodes| ==> nodes[i].id != nodes[j].id
  }

  predicate Known(nodes: seq<TaskNode>, id: TaskId) {
    IndexOf(nodes, id).Some?
  }

  predicate EdgesKnown(graph: Graph) {
    forall i :: 0 <= i < |graph.dependencies| ==>
      && Known(graph.nodes, graph.dependencies[i].prerequisite)
      && Known(graph.nodes, graph.dependencies[i].dependent)
      && graph.dependencies[i].prerequisite != graph.dependencies[i].dependent
  }

  predicate EdgesDistinct(dependencies: seq<TaskDependency>) {
    forall i, j :: 0 <= i < j < |dependencies| ==> dependencies[i] != dependencies[j]
  }

  predicate Structured(graph: Graph) {
    UniqueIds(graph.nodes) && EdgesKnown(graph) && EdgesDistinct(graph.dependencies)
  }

  // A walk along dependency edges, prerequisites first.
  ghost predicate IsWalk(dependencies: seq<TaskDependency>, walk: seq<TaskId>) {
    forall k :: 0 < k < |walk| ==> TaskDependency(walk[k - 1], walk[k]) in dependencies
  }

  ghost predicate Acyclic(dependencies: seq<TaskDependency>) {
    forall walk :: |walk| >= 2 && IsWalk(dependencies, walk) ==> walk[0] != walk[|walk| - 1]
  }

  // The edges into `id` whose prerequisite is not done.
  function OpenEdges(dependencies: seq<TaskDependency>, id: TaskId, done: set<TaskId>): nat {
    if dependencies == [] then 0
    else
      var last := dependencies[|dependencies| - 1];
      OpenEdges(dependencies[..|dependencies| - 1], id, done)
      + if last.dependent == id && last.prerequisite !in done then 1 else 0
  }

  // The scratch counters are u32.
  predicate InDegreesFit(graph: Graph) {
    forall i :: 0 <= i < |graph.nodes| ==> OpenEdges(graph.dependencies, graph.nodes[i].id, {}) <= U32_MAX
  }

  // ----- Every nonempty set closed under predecessors holds a cycle -----

  ghost predicate HasPredecessor(dependencies: seq<TaskDependency>, stuck: set<TaskId>, id: TaskId) {
    exists p :: p in stuck && TaskDependency(p, id) in dependencies
  }

  ghost predicate IsStuck(dependencies: seq<TaskDependency>, stuck: set<TaskId>) {
    forall id :: id in stuck ==> HasPredecessor(dependencies, stuck, id)
  }

  lemma Predecessor(dependencies: seq<TaskDependency>, stuck: set<TaskId>, id: TaskId) returns (p: TaskId)
    requires IsStuck(dependencies, stuck) && id in stuck
    ensures p in stuck && TaskDependency(p, id) in dependencies
  {
    assert HasPredecessor(dependencies, stuck, id);
    p :| p in stuck && TaskDependency(p, id) in dependencies;
  }

  lemma {:induction false} LongWalk(dependencies: seq<TaskDependency>, stuck: set<TaskId>, length: nat) returns (walk: seq<TaskId>)
    requires stuck != {} && IsStuck(dependencies, stuck)
    ensures |walk| == length + 1 && IsWalk(dependencies, walk) && forall k :: 0 <= k < |walk| ==> walk[k] in stuck
  {
    hide IsStuck;
    if length == 0 {
      var id :| id in stuck;
      walk := [id];
    } else {
      var rest := LongWalk(dependencies, stuck, length - 1);
      var p := Predecessor(dependencies, stuck, rest[0]);
      walk := [p] + rest;
    }
  }

  lemma StuckMeansCycle(dependencies: seq<TaskDependency>, stuck: set<TaskId>)
    requires stuck != {} && IsStuck(dependencies, stuck)
    ensures !Acyclic(dependencies)
  {
    hide IsStuck;
    var walk := LongWalk(dependencies, stuck, |stuck|);
    if forall a, b :: 0 <= a < b < |walk| ==> walk[a] != walk[b] {
      Fairness.DistinctFit(walk, stuck);
      assert false;
    }
    var a, b :| 0 <= a < b < |walk| && walk[a] == walk[b];
    var loop := walk[a..b + 1];
    assert IsWalk(dependencies, loop);
    assert |loop| >= 2 && loop[0] == loop[|loop| - 1];
  }

  // An order in which prerequisites come first rules cycles out.
  ghost predicate Ordered(dependencies: seq<TaskDependency>, order: seq<TaskId>) {
    forall q, e :: 0 <= q < |order| && e in dependencies && e.dependent == order[q] ==> e.prerequisite in order[..q]
  }

  lemma {:induction false} WalkClimbs(dependencies: seq<TaskDependency>, order: seq<TaskId>, walk: seq<TaskId>, q: nat) returns (p: nat)
    requires Ordered(dependencies, order)
    requires |walk| >= 1 && IsWalk(dependencies, walk)
    requires q < |order| && order[q] == walk[|walk| - 1]
    ensures p <= q && order[p] == walk[0]
    ensures |walk| >= 2 ==> p < q
  {
    if |walk| == 1 {
      p := q;
    } else {
      var e := TaskDependency(walk[|walk| - 2], walk[|walk| - 1]);
      assert e in dependencies;
      var before :| 0 <= before < q && order[..q][before] == e.prerequisite;
      p := WalkClimbs(dependencies, order, walk[..|walk| - 1], before);
    }
  }

  lemma OrderedIsAcyclic(dependencies: seq<TaskDependency>, order: seq<TaskId>)
    requires Ordered(dependencies, order)
    requires forall i, j :: 0 <= i < j < |order| ==> order[i] != order[j]
    requires forall e :: e in dependencies ==> e.dependent in order
    ensures Acyclic(dependencies)
  {
    forall walk | |walk| >= 2 && IsWalk(dependencies, walk)
      ensures walk[0] != walk[|walk| - 1]
    {
      assert TaskDependency(walk[|walk| - 2], walk[|walk| - 1]) in dependencies;
      var q :| 0 <= q < |order| && order[q] == walk[|walk| - 1];
      var p := WalkClimbs(dependencies, order, walk, q);
    }
  }

  // ----- Validation of nodes and edges -----

  method ValidateScratch(required: nat, counts: array<nat>, queue: array<nat>) returns (r: Outcome<()>)
    ensures r == if Min(counts.Length, queue.Length) < required
                 then Err(GraphCapacity(TaskNodes, required, Min(counts.Length, queue.Length))) else Ok(())
  {
    var available := Min(counts.Length, queue.Length);
    if available < required {
      return Err(GraphCapacity(TaskNodes, required, available));
    }
    return Ok(());
  }

  method ValidateNodes(nodes: seq<TaskNode>) returns (r: Outcome<()>)
    ensures r.Ok? <==> UniqueIds(nodes)
    ensures r.Err? ==> exists i, j :: 0 <= i < j < |nodes| && nodes[i].id == nodes[j].id && r.error == DuplicateTask(nodes[i].id)
  {
    for i := 0 to |nodes|
      invariant forall a, b :: 0 <= a < i && a < b < |nodes| ==> nodes[a].id != nodes[b].id
    {
      if j :| i < j < |nodes| && nodes[j].id == nodes[i].id {
        return Err(DuplicateTask(nodes[i].id));
      }
    }
    return Ok(());
  }

  // What each of the three edge errors says about the graph.
  ghost predicate EdgeErrorMeans(graph: Graph, error: TaskGraphError) {
    match error
    case UnknownTask(task) => !Known(graph.nodes, task) && exists e :: e in graph.dependencies && (e.prerequisite == task || e.dependent == task)
    case SelfDependency(task) => TaskDependency(task, task) in graph.dependencies
    case DuplicateDependency(edge) =>
      exists i, j :: 0 <= i < j < |graph.dependencies| && graph.dependencies[i] == edge && graph.dependencies[j] == edge
    case _ => false
  }

  method ValidateDependencies(graph: Graph) returns (r: Outcome<()>)
    ensures r.Ok? <==> EdgesKnown(graph) && EdgesDistinct(graph.dependencies)
    ensures r.Err? ==> EdgeErrorMeans(graph, r.error)
  {
    var edges := graph.dependencies;
    for i := 0 to |edges|
      invariant forall a :: 0 <= a < i ==>
        Known(graph.nodes, edges[a].prerequisite) && Known(graph.nodes, edges[a].dependent) && edges[a].prerequisite != edges[a].dependent
      invariant forall a, b :: 0 <= a < i && a < b < |edges| ==> edges[a] != edges[b]
    {
      var edge := edges[i];
      assert edge in graph.dependencies;
      if IndexOf(graph.nodes, edge.prerequisite).None? {
        return Err(UnknownTask(edge.prerequisite));
      }
      if IndexOf(graph.nodes, edge.dependent).None? {
        return Err(UnknownTask(edge.dependent));
      }
      if edge.prerequisite == edge.dependent {
        return Err(SelfDependency(edge.prerequisite));
      }
      if j :| i < j < |edges| && edges[j] == edge {
        return Err(DuplicateDependency(edge));
      }
    }
    return Ok(());
  }

  // ----- Counting open edges -----

  lemma {:induction false} OpenSplit(a: seq<TaskDependency>, b: seq<TaskDependency>, id: TaskId, done: set<TaskId>)
    ensures OpenEdges(a + b, id, done) == OpenEdges(a, id, done) + OpenEdges(b, id, done)
    decreases |b|
  {
    if b == [] {
      assert a + b == a;
    } else {
      var n := |b| - 1;
      OpenSplit(a, b[..n], id, done);
      assert (a + b)[..|a + b| - 1] == a + b[..n];
    }
  }

  // 1 if the edge is open, else 0.
  function IsOpen(edge: TaskDependency, id: TaskId, done: set<TaskId>): nat {
    if edge.dependent == id && edge.prerequisite !in done then 1 else 0
  }

  lemma OpenAt(edges: seq<TaskDependency>, k: nat, id: TaskId, done: set<TaskId>)
    requires k < |edges|
    ensures OpenEdges(edges[..k + 1], id, done) == OpenEdges(edges[..k], id, done) + IsOpen(edges[k], id, done)
    ensures OpenEdges(edges[k..], id, done) == IsOpen(edges[k], id, done) + OpenEdges(edges[k + 1..], id, done)
  {
    assert edges[..k + 1][..k] == edges[..k];
    OpenSplit([edges[k]], edges[k + 1..], id, done);
    assert edges[k..] == [edges[k]] + edges[k + 1..];
    assert [edges[k]][..0] == [];
  }

  // No edge is open exactly when every prerequisite is done.
  lemma {:induction false} OpenNone(edges: seq<TaskDependency>, id: TaskId, done: set<TaskId>)
    ensures OpenEdges(edges, id, done) == 0 <==> forall e :: e in edges && e.dependent == id ==> e.prerequisite in done
    decreases |edges|
  {
    if edges != [] {
      OpenNone(edges[..|edges| - 1], id, done);
      assert edges == edges[..|edges| - 1] + [edges[|edges| - 1]];
    }
  }

  // ----- Kahn's invariant -----

  // While the edges from one finished task are being released, the first k of them
  // already are: `after` adds that task to `done`.
  ghost predicate Counted(graph: Graph, c: seq<nat>, k: nat, done: set<TaskId>, after: set<TaskId>)
    requires k <= |graph.dependencies|
  {
    && |c| == |graph.nodes|
    && forall i :: 0 <= i < |c| ==>
         c[i] == OpenEdges(graph.dependencies[..k], graph.nodes[i].id, after) + OpenEdges(graph.dependencies[k..], graph.nodes[i].id, done)
  }

  // The queue holds each node whose count is zero, once.
  ghost predicate Queued(c: seq<nat>, order: seq<nat>) {
    && (forall i, j :: 0 <= i < j < |order| ==> order[i] != order[j])
    && (forall q :: 0 <= q < |order| ==> order[q] < |c|)
    && (forall i :: 0 <= i < |c| ==> (i in order <==> c[i] == 0))
  }

  ghost function Ids(graph: Graph, order: seq<nat>): (ids: seq<TaskId>)
    requires forall q :: 0 <= q < |order| ==> order[q] < |graph.nodes|
    ensures |ids| == |order| && forall q :: 0 <= q < |order| ==> ids[q] == graph.nodes[order[q]].id
  {
    seq(|order|, q requires 0 <= q < |order| => graph.nodes[order[q]].id)
  }

  ghost predicate QueueOrdered(graph: Graph, c: seq<nat>, order: seq<nat>) {
    && |c| == |graph.nodes|
    && Queued(c, order)
    && Ordered(graph.dependencies, Ids(graph, order))
  }

  ghost predicate DoneIs(graph: Graph, order: seq<nat>, head: nat, done: set<TaskId>) {
    && head <= |order|
    && (forall q :: 0 <= q < |order| ==> order[q] < |graph.nodes|)
    && done == set q | 0 <= q < head :: graph.nodes[order[q]].id
  }

  ghost predicate KahnState(graph: Graph, c: seq<nat>, order: seq<nat>, head: nat, done: set<TaskId>) {
    && Counted(graph, c, 0, done, done)
    && QueueOrdered(graph, c, order)
    && DoneIs(graph, order, head, done)
  }

  lemma UniqueIndex(graph: Graph, i: nat, id: TaskId)
    requires UniqueIds(graph.nodes) && i < |graph.nodes|
    ensures IndexOf(graph.nodes, id) == Some(i) <==> graph.nodes[i].id == id
  {
  }

  lemma QueueHasRoom(c: seq<nat>, order: seq<nat>, i: nat)
    requires Queued(c, order) && i < |c| && i !in order
    ensures |order| < |c|
  {
    Fairness.DistinctFit(order, Below(|c|) - {i});
    assert |Below(|c|) - {i}| == |c| - 1;
  }

  function Below(n: nat): (r: set<nat>)
    ensures |r| == n && forall x :: x in r <==> 0 <= x < n
  {
    if n == 0 then {} else Below(n - 1) + {n - 1}
  }

  // An edge whose prerequisite is another task changes no count.
  lemma OtherEdge(graph: Graph, c: seq<nat>, k: nat, done: set<TaskId>, current: TaskId)
    requires k < |graph.dependencies| && graph.dependencies[k].prerequisite != current
    requires Counted(graph, c, k, done, done + {current})
    ensures Counted(graph, c, k + 1, done, done + {current})
  {
    hide OpenEdges;
    forall i | 0 <= i < |c|
      ensures c[i] == OpenEdges(graph.dependencies[..k + 1], graph.nodes[i].id, done + {current})
                      + OpenEdges(graph.dependencies[k + 1..], graph.nodes[i].id, done)
    {
      OpenAt(graph.dependencies, k, graph.nodes[i].id, done + {current});
      OpenAt(graph.dependencies, k, graph.nodes[i].id, done);
    }
  }

  // One released edge: its dependent's count was positive and drops by one.
  lemma ReleasedEdge(graph: Graph, c: seq<nat>, k: nat, done: set<TaskId>, current: TaskId, i: nat)
    requires UniqueIds(graph.nodes) && k < |graph.dependencies| && graph.dependencies[k].prerequisite == current
    requires current !in done && i < |graph.nodes| && graph.nodes[i].id == graph.dependencies[k].dependent
    requires Counted(graph, c, k, done, done + {current})
    ensures c[i] > 0
    ensures Counted(graph, c[i := c[i] - 1], k + 1, done, done + {current})
  {
    hide OpenEdges;
    var edges := graph.dependencies;
    OpenAt(edges, k, graph.nodes[i].id, done);
    forall j | 0 <= j < |c|
      ensures c[j] - (if j == i then 1 else 0)
              == OpenEdges(edges[..k + 1], graph.nodes[j].id, done + {current}) + OpenEdges(edges[k + 1..], graph.nodes[j].id, done)
    {
      OpenAt(edges, k, graph.nodes[j].id, done + {current});
      OpenAt(edges, k, graph.nodes[j].id, done);
    }
  }

  // A count that reaches zero: there is room, and every prerequisite is already queued.
  lemma Enqueued(graph: Graph, c: seq<nat>, c': seq<nat>, order: seq<nat>, head: nat, k: nat, done: set<TaskId>, i: nat)
    requires k <= |graph.dependencies| && head < |order|
    requires QueueOrdered(graph, c, order) && DoneIs(graph, order, head, done)
    requires i < |c| && c[i] > 0 && c' == c[i := 0]
    requires Counted(graph, c', k, done, done + {graph.nodes[order[head]].id})
    ensures |order| < |c|
    ensures QueueOrdered(graph, c', order + [i])
  {
    hide OpenEdges, Counted;
    QueueHasRoom(c, order, i);
    var next := order + [i];
    assert Queued(c', next) by {
      forall j | 0 <= j < |c'|
        ensures j in next <==> c'[j] == 0
      {
        assert j in next <==> j in order || j == i;
      }
    }
    var edges, id, after := graph.dependencies, graph.nodes[i].id, done + {graph.nodes[order[head]].id};
    PrerequisitesDone(graph, c', k, done, after, i);
    var ids, ids' := Ids(graph, order), Ids(graph, next);
    assert ids' == ids + [id];
    forall q, e | 0 <= q < |next| && e in edges && e.dependent == ids'[q]
      ensures e.prerequisite in ids'[..q]
    {
      if q < |order| {
        assert ids'[..q] == ids[..q];
      } else {
        assert ids'[..q] == ids;
        var p :| 0 <= p <= head && e.prerequisite == graph.nodes[order[p]].id;
        assert ids[p] == e.prerequisite;
      }
    }
  }

  lemma PrerequisitesDone(graph: Graph, c: seq<nat>, k: nat, done: set<TaskId>, after: set<TaskId>, i: nat)
    requires k <= |graph.dependencies| && Counted(graph, c, k, done, after) && done <= after
    requires i < |c| && c[i] == 0
    ensures forall e :: e in graph.dependencies && e.dependent == graph.nodes[i].id ==> e.prerequisite in after
  {
    hide OpenEdges;
    OpenNone(graph.dependencies[..k], graph.nodes[i].id, after);
    OpenNone(graph.dependencies[k..], graph.nodes[i].id, done);
    assert graph.dependencies == graph.dependencies[..k] + graph.dependencies[k..];
  }

  // ----- The algorithm -----

  function EdgeOverflow(current: nat): TaskGraphError {
    GraphCapacity(TaskEdges, U32_MAX + 1, current)
  }

  // Fills the counters; fails exactly when one of them does not fit u32.
  method CountIncoming(graph: Graph, counts: array<nat>) returns (r: Outcome<()>)
    requires UniqueIds(graph.nodes) && EdgesKnown(graph) && |graph.nodes| <= counts.Length
    modifies counts
    ensures r.Ok? <==> InDegreesFit(graph)
    ensures r.Ok? ==> Counted(graph, counts[..|graph.nodes|], 0, {}, {})
    ensures r.Err? ==> r.error == GraphCapacity(TaskEdges, U32_MAX + 1, U32_MAX)
  {
    hide OpenEdges;
    var n, edges := |graph.nodes|, graph.dependencies;
    for i := 0 to n
      invariant forall a :: 0 <= a < i ==> counts[a] == 0
    {
      counts[i] := 0;
    }
    NoneCounted(graph, counts[..n]);
    for k := 0 to |edges|
      invariant PartlyCounted(graph, counts[..n], k)
      invariant forall a :: 0 <= a < n ==> counts[a] <= U32_MAX
    {
      var i := IndexOf(graph.nodes, edges[k].dependent).value;
      OneCounted(graph, counts[..n], k, i);
      var current: nat := counts[i];
      if current + 1 > U32_MAX {
        CountBounded(graph, k + 1, i);
        return Err(EdgeOverflow(current));
      }
      ghost var before: seq<nat> := counts[..n];
      counts[i] := current + 1;
      assert counts[..n] == before[i := current + 1];
    }
    AllCounted(graph, counts[..n]);
    return Ok(());
  }

  ghost predicate PartlyCounted(graph: Graph, c: seq<nat>, k: nat)
    requires k <= |graph.dependencies|
  {
    |c| == |graph.nodes| && forall i :: 0 <= i < |c| ==> c[i] == OpenEdges(graph.dependencies[..k], graph.nodes[i].id, {})
  }

  lemma NoneCounted(graph: Graph, c: seq<nat>)
    requires |c| == |graph.nodes| && forall i :: 0 <= i < |c| ==> c[i] == 0
    ensures PartlyCounted(graph, c, 0)
  {
  }

  lemma OneCounted(graph: Graph, c: seq<nat>, k: nat, i: nat)
    requires UniqueIds(graph.nodes) && k < |graph.dependencies| && PartlyCounted(graph, c, k)
    requires i < |c| && graph.nodes[i].id == graph.dependencies[k].dependent
    ensures PartlyCounted(graph, c[i := c[i] + 1], k + 1)
    ensures OpenEdges(graph.dependencies[..k + 1], graph.nodes[i].id, {}) == c[i] + 1
  {
    hide OpenEdges;
    forall j | 0 <= j < |c|
      ensures OpenEdges(graph.dependencies[..k + 1], graph.nodes[j].id, {}) == c[j] + if j == i then 1 else 0
    {
      OpenAt(graph.dependencies, k, graph.nodes[j].id, {});
    }
  }

  lemma CountBounded(graph: Graph, k: nat, i: nat)
    requires k <= |graph.dependencies| && i < |graph.nodes|
    ensures OpenEdges(graph.dependencies[..k], graph.nodes[i].id, {}) <= OpenEdges(graph.dependencies, graph.nodes[i].id, {})
  {
    OpenSplit(graph.dependencies[..k], graph.dependencies[k..], graph.nodes[i].id, {});
    assert graph.dependencies == graph.dependencies[..k] + graph.dependencies[k..];
  }

  lemma AllCounted(graph: Graph, c: seq<nat>)
    requires PartlyCounted(graph, c, |graph.dependencies|)
    ensures Counted(graph, c, 0, {}, {})
    ensures forall i :: 0 <= i < |c| ==> c[i] == OpenEdges(graph.dependencies, graph.nodes[i].id, {})
  {
    assert graph.dependencies[..|graph.dependencies|] == graph.dependencies;
    assert graph.dependencies[0..] == graph.dependencies && graph.dependencies[..0] == [];
  }

  // Queues every node without prerequisites, in index order.
  method SeedQueue(graph: Graph, counts: array<nat>, queue: array<nat>) returns (length: nat)
    requires |graph.nodes| <= counts.Length && |graph.nodes| <= queue.Length && counts != queue
    requires Counted(graph, counts[..|graph.nodes|], 0, {}, {})
    modifies queue
    ensures length <= |graph.nodes|
    ensures KahnState(graph, counts[..|graph.nodes|], queue[..length], 0, {})
  {
    hide OpenEdges, Counted, Seeded, KahnState;
    var n := |graph.nodes|;
    length := 0;
    ghost var zeros := counts[..n];
    NoneSeeded(zeros);
    for i := 0 to n
      invariant length <= i
      invariant counts[..n] == zeros
      invariant Seeded(zeros, queue[..length], i)
    {
      SeedOneMore(zeros, queue[..length], i);
      if counts[i] == 0 {
        ghost var before := queue[..length];
        queue[length] := i;
        length := length + 1;
        assert queue[..length] == before + [i];
      }
    }
    AllSeeded(zeros, queue[..length]);
    SeedIsOrdered(graph, zeros, queue[..length]);
  }

  // The first i nodes are queued exactly where their count is zero.
  ghost predicate Seeded(counts: seq<nat>, order: seq<nat>, i: nat) {
    && i <= |counts|
    && (forall q :: 0 <= q < |order| ==> order[q] < i && counts[order[q]] == 0)
    && (forall a, b :: 0 <= a < b < |order| ==> order[a] != order[b])
    && forall a :: 0 <= a < i && counts[a] == 0 ==> a in order
  }

  lemma NoneSeeded(counts: seq<nat>)
    ensures Seeded(counts, [], 0)
  {
  }

  lemma SeedOneMore(counts: seq<nat>, order: seq<nat>, i: nat)
    requires Seeded(counts, order, i) && i < |counts|
    ensures Seeded(counts, if counts[i] == 0 then order + [i] else order, i + 1)
  {
  }

  lemma AllSeeded(counts: seq<nat>, order: seq<nat>)
    requires Seeded(counts, order, |counts|)
    ensures Queued(counts, order)
  {
  }

  lemma SeedIsOrdered(graph: Graph, c: seq<nat>, order: seq<nat>)
    requires Counted(graph, c, 0, {}, {}) && Queued(c, order)
    ensures KahnState(graph, c, order, 0, {})
  {
    forall q | 0 <= q < |order|
      ensures forall e :: e in graph.dependencies ==> e.dependent != Ids(graph, order)[q]
    {
      assert order[q] in order;
      PrerequisitesDone(graph, c, 0, {}, {}, order[q]);
    }
    hide OpenEdges;
  }

  // Releases the edges out of the task at the head of the queue. The zero-count branch
  // of the source cannot be taken, and the queue never overflows.
  method ReleaseDependents(graph: Graph, head: nat, counts: array<nat>, queue: array<nat>, length: nat, ghost done: set<TaskId>)
    returns (length': nat)
    requires UniqueIds(graph.nodes) && EdgesKnown(graph)
    requires |graph.nodes| <= counts.Length && |graph.nodes| <= queue.Length && counts != queue
    requires head < length <= |graph.nodes|
    requires KahnState(graph, counts[..|graph.nodes|], queue[..length], head, done)
    modifies counts, queue
    ensures length <= length' <= |graph.nodes|
    ensures queue[head] < |graph.nodes|
    ensures KahnState(graph, counts[..|graph.nodes|], queue[..length'], head + 1, done + {graph.nodes[queue[head]].id})
  {
    hide OpenEdges, Counted, Queued, Ordered, QueueOrdered, IndexOf;
    var n, edges := |graph.nodes|, graph.dependencies;
    assert queue[..length][head] == queue[head];
    HeadIsNew(graph, counts[..n], queue[..length], head, done);
    var current := graph.nodes[queue[head]].id;
    length' := length;
    StartRelease(graph, counts[..n], done, current);
    for k := 0 to |edges|
      invariant length <= length' <= n
      invariant queue[head] < n && graph.nodes[queue[head]].id == current
      invariant Counted(graph, counts[..n], k, done, done + {current})
      invariant QueueOrdered(graph, counts[..n], queue[..length'])
      invariant DoneIs(graph, queue[..length'], head, done)
    {
      ghost var c, order := counts[..n], queue[..length'];
      if edges[k].prerequisite == current {
        assert Known(graph.nodes, edges[k].dependent);
        var i := IndexOf(graph.nodes, edges[k].dependent).value;
        IndexFound(graph.nodes, edges[k].dependent);
        ReleasedEdge(graph, c, k, done, current, i);
        counts[i] := counts[i] - 1;
        assert counts[..n] == c[i := c[i] - 1];
        if counts[i] == 0 {
          Enqueued(graph, c, counts[..n], order, head, k + 1, done, i);
          queue[length'] := i;
          length' := length' + 1;
          assert queue[..length'] == order + [i];
          DoneKept(graph, order, i, head, done);
        } else {
          StillOpen(graph, c, order, i);
        }
      } else {
        OtherEdge(graph, c, k, done, current);
      }
    }
    FinishRelease(graph, counts[..n], queue[..length'], head, done);
  }

  lemma IndexFound(nodes: seq<TaskNode>, id: TaskId)
    requires Known(nodes, id)
    ensures IndexOf(nodes, id).value < |nodes| && nodes[IndexOf(nodes, id).value].id == id
  {
  }

  // The task at the head is not done yet.
  lemma HeadIsNew(graph: Graph, c: seq<nat>, order: seq<nat>, head: nat, done: set<TaskId>)
    requires UniqueIds(graph.nodes) && KahnState(graph, c, order, head, done) && head < |order|
    ensures order[head] < |graph.nodes| && graph.nodes[order[head]].id !in done
    ensures QueueOrdered(graph, c, order) && DoneIs(graph, order, head, done) && Counted(graph, c, 0, done, done)
  {
    hide Counted, Ordered, OpenEdges;
    forall q | 0 <= q < head
      ensures graph.nodes[order[q]].id != graph.nodes[order[head]].id
    {
      assert order[q] != order[head];
    }
  }

  lemma StartRelease(graph: Graph, c: seq<nat>, done: set<TaskId>, current: TaskId)
    requires Counted(graph, c, 0, done, done)
    ensures Counted(graph, c, 0, done, done + {current})
  {
    assert graph.dependencies[..0] == [];
  }

  lemma DoneKept(graph: Graph, order: seq<nat>, i: nat, head: nat, done: set<TaskId>)
    requires DoneIs(graph, order, head, done) && i < |graph.nodes|
    ensures DoneIs(graph, order + [i], head, done)
  {
    forall q | 0 <= q < head
      ensures (order + [i])[q] == order[q]
    {
    }
    assert (set q | 0 <= q < head :: graph.nodes[(order + [i])[q]].id) == (set q | 0 <= q < head :: graph.nodes[order[q]].id);
  }

  lemma StillOpen(graph: Graph, c: seq<nat>, order: seq<nat>, i: nat)
    requires QueueOrdered(graph, c, order) && i < |c| && c[i] > 1
    ensures QueueOrdered(graph, c[i := c[i] - 1], order)
  {
    hide Ordered;
  }

  lemma FinishRelease(graph: Graph, c: seq<nat>, order: seq<nat>, head: nat, done: set<TaskId>)
    requires head < |order| && DoneIs(graph, order, head, done) && QueueOrdered(graph, c, order)
    requires Counted(graph, c, |graph.dependencies|, done, done + {graph.nodes[order[head]].id})
    ensures KahnState(graph, c, order, head + 1, done + {graph.nodes[order[head]].id})
  {
    hide QueueOrdered, OpenEdges;
    var after := done + {graph.nodes[order[head]].id};
    var edges := graph.dependencies;
    assert edges[..|edges|] == edges && edges[|edges|..] == [] && edges[..0] == [] && edges[0..] == edges;
    NoOpenEdges(after);
    NoOpenEdges(done);
    forall i | 0 <= i < |c|
      ensures c[i] == OpenEdges(edges[..0], graph.nodes[i].id, after) + OpenEdges(edges[0..], graph.nodes[i].id, after)
    {
    }
  }

  lemma NoOpenEdges(done: set<TaskId>)
    ensures forall id :: OpenEdges([], id, done) == 0
  {
  }

  // Every node was queued: the queue is an order that rules cycles out.
  lemma AllQueued(graph: Graph, c: seq<nat>, order: seq<nat>, done: set<TaskId>)
    requires UniqueIds(graph.nodes) && EdgesKnown(graph)
    requires KahnState(graph, c, order, |order|, done) && |order| == |graph.nodes|
    ensures Acyclic(graph.dependencies)
  {
    hide Counted, OpenEdges, Ordered, IndexOf, Acyclic;
    var ids := Ids(graph, order);
    forall i, j | 0 <= i < j < |ids|
      ensures ids[i] != ids[j]
    {
      assert order[i] != order[j];
    }
    Fill(order, |c|);
    forall e | e in graph.dependencies
      ensures e.dependent in ids
    {
      var k :| 0 <= k < |graph.dependencies| && graph.dependencies[k] == e;
      IndexFound(graph.nodes, e.dependent);
      var i := IndexOf(graph.nodes, e.dependent).value;
      assert |c| == |graph.nodes| && i in order;
      var q :| 0 <= q < |order| && order[q] == i;
      assert ids[q] == e.dependent;
    }
    OrderedIsAcyclic(graph.dependencies, ids);
  }

  // n distinct indices below n are all of them.
  lemma Fill(order: seq<nat>, n: nat)
    requires |order| == n
    requires forall i, j :: 0 <= i < j < |order| ==> order[i] != order[j]
    requires forall q :: 0 <= q < |order| ==> order[q] < n
    ensures forall i :: 0 <= i < n ==> i in order
  {
    forall i | 0 <= i < n
      ensures i in order
    {
      if i !in order {
        assert |Below(n) - {i}| == n - 1;
        Fairness.DistinctFit(order, Below(n) - {i});
      }
    }
  }

  // Some node was never queued: those that were not form a set closed under predecessors.
  lemma SomeStuck(graph: Graph, c: seq<nat>, order: seq<nat>, done: set<TaskId>)
    requires UniqueIds(graph.nodes) && EdgesKnown(graph)
    requires KahnState(graph, c, order, |order|, done) && |order| < |graph.nodes|
    ensures !Acyclic(graph.dependencies)
  {
    hide OpenEdges, Ordered, Acyclic, IndexOf, IsStuck;
    var stuck := set i | 0 <= i < |c| && c[i] > 0 :: graph.nodes[i].id;
    StuckNodesStuck(graph, c, order, done, stuck);
    if stuck == {} {
      assert forall i :: 0 <= i < |c| && c[i] > 0 ==> graph.nodes[i].id in stuck;
      forall x | x in Below(|c|)
        ensures x in order
      {
        assert c[x] == 0;
      }
      SetOfSeq(order, Below(|c|));
    }
    StuckMeansCycle(graph.dependencies, stuck);
  }

  lemma {:induction false} SetOfSeq(s: seq<nat>, all: set<nat>)
    requires forall x :: x in all ==> x in s
    ensures |all| <= |s|
    decreases |s|
  {
    if s == [] {
      assert all == {};
    } else {
      var last := s[|s| - 1];
      assert s == s[..|s| - 1] + [last];
      SetOfSeq(s[..|s| - 1], all - {last});
      assert |all| <= |all - {last}| + 1;
    }
  }

  lemma QueuedIsDone(graph: Graph, c: seq<nat>, order: seq<nat>, done: set<TaskId>, i: nat)
    requires KahnState(graph, c, order, |order|, done) && i < |c|
    ensures c[i] == 0 ==> graph.nodes[i].id in done
  {
    if c[i] == 0 {
      var q :| 0 <= q < |order| && order[q] == i;
    }
  }

  lemma StuckNodesStuck(graph: Graph, c: seq<nat>, order: seq<nat>, done: set<TaskId>, stuck: set<TaskId>)
    requires UniqueIds(graph.nodes) && EdgesKnown(graph)
    requires KahnState(graph, c, order, |order|, done)
    requires stuck == set i | 0 <= i < |c| && c[i] > 0 :: graph.nodes[i].id
    ensures IsStuck(graph.dependencies, stuck)
  {
    hide OpenEdges, Ordered, IndexOf;
    forall id | id in stuck
      ensures HasPredecessor(graph.dependencies, stuck, id)
    {
      var i :| 0 <= i < |c| && c[i] > 0 && graph.nodes[i].id == id;
      var e := OpenPrerequisite(graph, c, done, i);
      var k :| 0 <= k < |graph.dependencies| && graph.dependencies[k] == e;
      IndexFound(graph.nodes, e.prerequisite);
      var p := IndexOf(graph.nodes, e.prerequisite).value;
      QueuedIsDone(graph, c, order, done, p);
      assert e.prerequisite in stuck && TaskDependency(e.prerequisite, id) in graph.dependencies;
    }
  }

  lemma OpenPrerequisite(graph: Graph, c: seq<nat>, done: set<TaskId>, i: nat) returns (e: TaskDependency)
    requires Counted(graph, c, 0, done, done) && i < |c| && c[i] > 0
    ensures e in graph.dependencies && e.dependent == graph.nodes[i].id && e.prerequisite !in done
  {
    assert graph.dependencies[..0] == [] && graph.dependencies[0..] == graph.dependencies;
    OpenNone(graph.dependencies, graph.nodes[i].id, done);
    e :| e in graph.dependencies && e.dependent == graph.nodes[i].id && e.prerequisite !in done;
  }

  // validate_graph. With room in the scratch arrays and counts that fit u32 it accepts
  // exactly the well-formed acyclic graphs, and reports a cycle exactly for the others
  // that are well formed.
  method ValidateGraph(graph: Graph, counts: array<nat>, queue: array<nat>) returns (r: Outcome<()>)
    requires counts != queue
    modifies counts, queue
    ensures |graph.nodes| > Min(counts.Length, queue.Length) ==>
      r == Err(GraphCapacity(TaskNodes, |graph.nodes|, Min(counts.Length, queue.Length)))
    ensures |graph.nodes| <= Min(counts.Length, queue.Length) ==>
      && (r.Ok? <==> Structured(graph) && InDegreesFit(graph) && Acyclic(graph.dependencies))
      && (r == Err(CycleDetected) <==> Structured(graph) && InDegreesFit(graph) && !Acyclic(graph.dependencies))
      && (r == Err(GraphCapacity(TaskEdges, U32_MAX + 1, U32_MAX)) <==> Structured(graph) && !InDegreesFit(graph))
      && (!UniqueIds(graph.nodes) ==> exists i, j :: 0 <= i < j < |graph.nodes| && graph.nodes[i].id == graph.nodes[j].id && r == Err(DuplicateTask(graph.nodes[i].id)))
      && (UniqueIds(graph.nodes) && !Structured(graph) ==> r.Err? && EdgeErrorMeans(graph, r.error))
  {
    hide OpenEdges, UniqueIds, EdgesDistinct, Acyclic, InDegreesFit, KahnState, Counted, Known;
    var _ :- ValidateScratch(|graph.nodes|, counts, queue);
    var _ :- ValidateNodes(graph.nodes);
    var _ :- ValidateDependencies(graph);
    var _ :- CountIncoming(graph, counts);
    var n := |graph.nodes|;
    var length := SeedQueue(graph, counts, queue);
    var head := 0;
    ghost var done: set<TaskId> := {};
    while head < length
      invariant head <= length <= n
      invariant KahnState(graph, counts[..n], queue[..length], head, done)
      decreases n - head
    {
      length := ReleaseDependents(graph, head, counts, queue, length, done);
      done := done + {graph.nodes[queue[head]].id};
      head := head + 1;
    }
    if head == n {
      AllQueued(graph, counts[..n], queue[..length], done);
      return Ok(());
    }
    SomeStuck(graph, counts[..n], queue[..length], done);
    return Err(CycleDetected);
  }
}
