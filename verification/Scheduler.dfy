/** The dependency graph coordinator (backend/orchestration.py): transitions, runnable nodes, and progress on any graph
    whose nodes are listed after their dependencies. */
module Scheduler {
  import opened Wrappers
  import opened Models

  datatype Node = Node(
    id: string, name: string, phase: string, dependencies: seq<string>, status: Status,
    startedAt: Option<Timestamp>, completedAt: Option<Timestamp>, confidence: real, retryCount: int)

  datatype Graph = Graph(nodes: seq<Node>, edges: seq<(string, string)>, updatedAt: Timestamp)

  datatype AgentSpec = AgentSpec(id: string, name: string, phase: string, dependencies: seq<string>)

  const DEFAULT_SEQUENCE: seq<AgentSpec> := [
    AgentSpec("planner", "Planner", "planner", []),
    AgentSpec("schema", "Schema Agent", "schema retrieval", ["planner"]),
    AgentSpec("memory", "Memory Agent", "memory retrieval", ["schema"]),
    AgentSpec("sql", "SQL Agent", "sql generation", ["memory"]),
    AgentSpec("validation", "Validation Agent", "validation", ["sql"]),
    AgentSpec("reflection", "Reflection Agent", "reflection", ["validation"]),
    AgentSpec("execution", "Execution Agent", "execution", ["validation"]),
    AgentSpec("insight", "Insight Agent", "autonomous insight", ["execution"]),
    AgentSpec("investigation", "Investigation Agent", "investigation", ["insight"])]

  function BuildNodes(agents: seq<AgentSpec>): (nodes: seq<Node>)
    ensures |nodes| == |agents|
  {
    seq(|agents|, i requires 0 <= i < |agents| =>
      Node(agents[i].id, agents[i].name, agents[i].phase, agents[i].dependencies, Queued, None, None, 0.0, 0))
  }

  function EdgesInto(id: string, dependencies: seq<string>): (edges: seq<(string, string)>)
    ensures |edges| == |dependencies|
  {
    seq(|dependencies|, i requires 0 <= i < |dependencies| => (dependencies[i], id))
  }

  function BuildEdges(agents: seq<AgentSpec>): seq<(string, string)> {
    if agents == [] then []
    else
      var last := agents[|agents| - 1];
      BuildEdges(agents[..|agents| - 1]) + EdgesInto(last.id, last.dependencies)
  }

  function BuildGraph(agents: seq<AgentSpec>, now: Timestamp): Graph {
    Graph(BuildNodes(agents), BuildEdges(agents), now)
  }

  // ---------------------------------------------------------------- transitions

  function Moved(
    node: Node, status: Status, confidence: Option<real>, retryCount: int, now: Timestamp): Node
  {
    node.(status := status,
          startedAt := if status == Running && node.startedAt == None then Some(now) else node.startedAt,
          completedAt := if status == Completed || status == Failed || status == Skipped then Some(now)
                         else node.completedAt,
          confidence := if confidence.Some? then confidence.value else node.confidence,
          retryCount := retryCount)
  }

  function MovedNodes(
    nodes: seq<Node>, phase: string, status: Status, confidence: Option<real>, retryCount: int, now: Timestamp)
    : (moved: seq<Node>)
    ensures |moved| == |nodes|
  {
    seq(|nodes|, i requires 0 <= i < |nodes| =>
      if nodes[i].phase == phase then Moved(nodes[i], status, confidence, retryCount, now) else nodes[i])
  }

  function Transitioned(
    graph: Option<Graph>, phase: string, status: Status, confidence: Option<real>, retryCount: int, now: Timestamp)
    : Graph
  {
    var g := if graph.Some? then graph.value else BuildGraph(DEFAULT_SEQUENCE, now);
    Graph(MovedNodes(g.nodes, phase, status, confidence, retryCount, now), g.edges, now)
  }

  method MoveNode(node: Node, status: Status, confidence: Option<real>, retryCount: int, now: Timestamp)
    returns (updated: Node)
    ensures updated == Moved(node, status, confidence, retryCount, now)
    ensures updated.id == node.id && updated.name == node.name && updated.phase == node.phase
    ensures updated.dependencies == node.dependencies
  {
    updated := node.(status := status);
    if status == Running && updated.startedAt == None { updated := updated.(startedAt := Some(now)); }
    if status == Completed || status == Failed || status == Skipped { updated := updated.(completedAt := Some(now)); }
    if confidence.Some? { updated := updated.(confidence := confidence.value); }
    updated := updated.(retryCount := retryCount);
  }

  lemma MovedShape(
    graph: Graph, phase: string, status: Status, confidence: Option<real>, retryCount: int, now: Timestamp)
    ensures var r := Transitioned(Some(graph), phase, status, confidence, retryCount, now);
      SameShape(graph, r)
      && forall i :: 0 <= i < |r.nodes| && r.nodes[i].phase != phase ==> r.nodes[i] == graph.nodes[i]
  {
  }

  /** `transition`: only the nodes of the phase change, and of those only status, times, confidence and retry count;
      without a graph the default one is built first. */
  method Transition(
    graph: Option<Graph>, phase: string, status: Status, confidence: Option<real>, retryCount: int, now: Timestamp)
    returns (r: Graph)
    ensures r == Transitioned(graph, phase, status, confidence, retryCount, now)
    ensures graph.Some? ==> SameShape(graph.value, r)
    ensures graph.Some? ==>
      forall i :: 0 <= i < |r.nodes| && r.nodes[i].phase != phase ==> r.nodes[i] == graph.value.nodes[i]
  {
    hide BuildGraph, Moved, SameShape;
    var g := if graph.Some? then graph.value else BuildGraph(DEFAULT_SEQUENCE, now);
    var nodes := [];
    for i := 0 to |g.nodes|
      invariant nodes == MovedNodes(g.nodes, phase, status, confidence, retryCount, now)[..i]
    {
      var updated := g.nodes[i];
      if updated.phase == phase { updated := MoveNode(updated, status, confidence, retryCount, now); }
      nodes := nodes + [updated];
    }
    r := Graph(nodes, g.edges, now);
    if graph.Some? { MovedShape(graph.value, phase, status, confidence, retryCount, now); }
  }

  /** Same nodes by id, name, phase and dependencies, same edges. */
  ghost predicate SameShape(g: Graph, h: Graph) {
    && |h.nodes| == |g.nodes| && h.edges == g.edges
    && forall i :: 0 <= i < |g.nodes| ==>
         h.nodes[i].id == g.nodes[i].id && h.nodes[i].name == g.nodes[i].name && h.nodes[i].phase == g.nodes[i].phase
         && h.nodes[i].dependencies == g.nodes[i].dependencies
  }

  // ---------------------------------------------------------------- runnable and ready

  /** The status the id maps to; of several nodes with one id the last counts. */
  function StatusOf(nodes: seq<Node>, id: string): Option<Status> {
    if nodes == [] then None
    else if nodes[|nodes| - 1].id == id then Some(nodes[|nodes| - 1].status)
    else StatusOf(nodes[..|nodes| - 1], id)
  }

  predicate Satisfied(g: Graph, node: Node) {
    forall k :: 0 <= k < |node.dependencies| ==> StatusOf(g.nodes, node.dependencies[k]) == Some(Completed)
  }

  predicate IsRunnable(g: Graph, node: Node) {
    node.status == Queued && Satisfied(g, node)
  }

  function RunnableAmong(g: Graph, nodes: seq<Node>): seq<Node> {
    if nodes == [] then []
    else
      var last := nodes[|nodes| - 1];
      RunnableAmong(g, nodes[..|nodes| - 1]) + (if IsRunnable(g, last) then [last] else [])
  }

  function Runnable(g: Graph): seq<Node> {
    RunnableAmong(g, g.nodes)
  }

  method RunnableNodes(graph: Option<Graph>) returns (runnable: seq<Node>)
    ensures graph.None? ==> runnable == []
    ensures graph.Some? ==> runnable == Runnable(graph.value)
    ensures graph.Some? ==> forall n :: n in runnable <==> n in graph.value.nodes && IsRunnable(graph.value, n)
  {
    if graph.None? { return []; }
    var g := graph.value;
    runnable := [];
    for i := 0 to |g.nodes|
      invariant runnable == RunnableAmong(g, g.nodes[..i])
    {
      assert g.nodes[..i + 1][..i] == g.nodes[..i];
      if g.nodes[i].status != Queued { continue; }
      if Satisfied(g, g.nodes[i]) { runnable := runnable + [g.nodes[i]]; }
    }
    assert g.nodes[..|g.nodes|] == g.nodes;
    RunnableAre(g, g.nodes);
  }

  lemma {:induction false} RunnableAre(g: Graph, nodes: seq<Node>)
    ensures forall n :: n in RunnableAmong(g, nodes) <==> n in nodes && IsRunnable(g, n)
  {
    if nodes != [] {
      RunnableAre(g, nodes[..|nodes| - 1]);
      assert nodes == nodes[..|nodes| - 1] + [nodes[|nodes| - 1]];
      hide IsRunnable;
    }
  }

  predicate Unblocking(status: Option<Status>) {
    status == Some(Completed) || status == Some(Skipped)
  }

  /** `dependency_status` (backend/execution_graph.py): the dependencies neither completed nor skipped. */
  function BlockedBy(g: Graph, dependencies: seq<string>): seq<string> {
    if dependencies == [] then []
    else
      var last := dependencies[|dependencies| - 1];
      BlockedBy(g, dependencies[..|dependencies| - 1])
      + (if Unblocking(StatusOf(g.nodes, last)) then [] else [last])
  }

  predicate IsReady(g: Graph, node: Node) {
    node.status == Queued && BlockedBy(g, node.dependencies) == []
  }

  predicate DependsOnSkipped(g: Graph, node: Node) {
    exists k :: 0 <= k < |node.dependencies| && StatusOf(g.nodes, node.dependencies[k]) == Some(Skipped)
  }

  lemma {:induction false} NothingBlocks(g: Graph, dependencies: seq<string>)
    ensures BlockedBy(g, dependencies) == []
      <==> forall k :: 0 <= k < |dependencies| ==> Unblocking(StatusOf(g.nodes, dependencies[k]))
  {
    if dependencies != [] {
      NothingBlocks(g, dependencies[..|dependencies| - 1]);
      assert forall k :: 0 <= k < |dependencies| - 1 ==> dependencies[..|dependencies| - 1][k] == dependencies[k];
    }
  }

  /** A runnable node is ready; a ready one is runnable exactly if nothing it depends on was skipped. */
  lemma ReadyOrRunnable(g: Graph, node: Node)
    ensures IsRunnable(g, node) <==> IsReady(g, node) && !DependsOnSkipped(g, node)
  {
    NothingBlocks(g, node.dependencies);
    hide BlockedBy, StatusOf;
  }

  // ---------------------------------------------------------------- progress

  /** Ids and phases are unique and every dependency names an earlier node. */
  ghost predicate Topological(g: Graph) {
    && (forall i, j :: 0 <= i < j < |g.nodes| ==>
          g.nodes[i].id != g.nodes[j].id && g.nodes[i].phase != g.nodes[j].phase)
    && forall i, k :: 0 <= i < |g.nodes| && 0 <= k < |g.nodes[i].dependencies| ==>
         Earlier(g, i, g.nodes[i].dependencies[k])
  }

  ghost predicate Earlier(g: Graph, i: nat, id: string) {
    exists j :: 0 <= j < i && j < |g.nodes| && g.nodes[j].id == id
  }

  /** Only queued and completed nodes, and never a completed one ahead of a dependency. */
  ghost predicate Orderly(g: Graph) {
    forall i :: 0 <= i < |g.nodes| ==>
      && (g.nodes[i].status == Queued || g.nodes[i].status == Completed)
      && (g.nodes[i].status == Completed ==> Satisfied(g, g.nodes[i]))
  }

  function QueuedCount(nodes: seq<Node>): nat {
    if nodes == [] then 0
    else QueuedCount(nodes[..|nodes| - 1]) + (if nodes[|nodes| - 1].status == Queued then 1 else 0)
  }

  lemma {:induction false} StatusAt(nodes: seq<Node>, i: nat)
    requires i < |nodes| && forall a, b :: 0 <= a < b < |nodes| ==> nodes[a].id != nodes[b].id
    ensures StatusOf(nodes, nodes[i].id) == Some(nodes[i].status)
  {
    if i < |nodes| - 1 { StatusAt(nodes[..|nodes| - 1], i); }
  }

  lemma {:induction false} QueuedSome(nodes: seq<Node>)
    ensures QueuedCount(nodes) == 0 <==> forall i :: 0 <= i < |nodes| ==> nodes[i].status != Queued
  {
    if nodes != [] {
      QueuedSome(nodes[..|nodes| - 1]);
      assert forall i :: 0 <= i < |nodes| - 1 ==> nodes[..|nodes| - 1][i] == nodes[i];
    }
  }

  /** The first node that is still queued can run: everything before it is completed. */
  lemma {:induction false} FirstQueuedRuns(g: Graph, i: nat) returns (j: nat)
    requires Topological(g) && Orderly(g) && i < |g.nodes| && g.nodes[i].status == Queued
    ensures j <= i && IsRunnable(g, g.nodes[j])
    decreases i
  {
    hide StatusOf, Satisfied;
    if h :| 0 <= h < i && g.nodes[h].status == Queued {
      j := FirstQueuedRuns(g, h);
    } else {
      j := i;
      assert Satisfied(g, g.nodes[i]) by { AllBeforeDone(g, i); }
    }
  }

  lemma AllBeforeDone(g: Graph, i: nat)
    requires Topological(g) && i < |g.nodes| && forall h :: 0 <= h < i ==> g.nodes[h].status == Completed
    ensures Satisfied(g, g.nodes[i])
  {
    hide StatusOf;
    forall k | 0 <= k < |g.nodes[i].dependencies|
      ensures StatusOf(g.nodes, g.nodes[i].dependencies[k]) == Some(Completed)
    {
      assert Earlier(g, i, g.nodes[i].dependencies[k]);
      var j :| 0 <= j < i && j < |g.nodes| && g.nodes[j].id == g.nodes[i].dependencies[k];
      StatusAt(g.nodes, j);
    }
  }

  /** Progress: some node is runnable unless all are completed. */
  lemma SomethingRuns(g: Graph)
    requires Topological(g) && Orderly(g)
    ensures Runnable(g) == [] <==> forall i :: 0 <= i < |g.nodes| ==> g.nodes[i].status == Completed
    ensures Runnable(g) == [] <==> QueuedCount(g.nodes) == 0
  {
    RunnableAre(g, g.nodes);
    QueuedSome(g.nodes);
    hide IsRunnable, StatusOf, RunnableAmong, QueuedCount, Satisfied;
    if i :| 0 <= i < |g.nodes| && g.nodes[i].status == Queued {
      var j := FirstQueuedRuns(g, i);
      assert g.nodes[j] in Runnable(g);
    }
    assert Runnable(g) != [] ==> Runnable(g)[0] in g.nodes && Runnable(g)[0].status == Queued by {
      RunnableQueued(g);
    }
  }

  lemma RunnableQueued(g: Graph)
    ensures forall n :: n in Runnable(g) ==> n in g.nodes && n.status == Queued
  {
    RunnableAre(g, g.nodes);
  }

  function CompletedBy(g: Graph, phase: string, now: Timestamp): Graph {
    Transitioned(Some(g), phase, Completed, None, 0, now)
  }

  lemma {:induction false} StatusKept(nodes: seq<Node>, moved: seq<Node>, id: string)
    requires |moved| == |nodes| && forall i :: 0 <= i < |nodes| ==>
      moved[i].id == nodes[i].id && (nodes[i].status == Completed ==> moved[i].status == Completed)
    ensures StatusOf(nodes, id) == Some(Completed) ==> StatusOf(moved, id) == Some(Completed)
  {
    if nodes != [] { StatusKept(nodes[..|nodes| - 1], moved[..|moved| - 1], id); }
  }

  lemma {:induction false} OneFewerQueued(nodes: seq<Node>, moved: seq<Node>, i: nat)
    requires i < |nodes| && |moved| == |nodes| && nodes[i].status == Queued && moved[i].status != Queued
    requires forall k :: 0 <= k < |nodes| && k != i ==> moved[k].status == nodes[k].status
    ensures QueuedCount(nodes) == QueuedCount(moved) + 1
  {
    var n := |nodes| - 1;
    if i < n {
      OneFewerQueued(nodes[..n], moved[..n], i);
    } else {
      SameQueued(nodes[..n], moved[..n]);
    }
  }

  lemma {:induction false} SameQueued(nodes: seq<Node>, moved: seq<Node>)
    requires |moved| == |nodes| && forall k :: 0 <= k < |nodes| ==> moved[k].status == nodes[k].status
    ensures QueuedCount(nodes) == QueuedCount(moved)
  {
    if nodes != [] { SameQueued(nodes[..|nodes| - 1], moved[..|nodes| - 1]); }
  }

  lemma SatisfiedKept(g: Graph, h: Graph, node: Node, other: Node)
    requires Satisfied(g, node) && other.dependencies == node.dependencies && |h.nodes| == |g.nodes|
    requires forall i :: 0 <= i < |g.nodes| ==>
      h.nodes[i].id == g.nodes[i].id && (g.nodes[i].status == Completed ==> h.nodes[i].status == Completed)
    ensures Satisfied(h, other)
  {
    forall k | 0 <= k < |other.dependencies| ensures StatusOf(h.nodes, other.dependencies[k]) == Some(Completed) {
      StatusKept(g.nodes, h.nodes, other.dependencies[k]);
    }
  }

  /** Completing a runnable node leaves a graph of the same kind with one node fewer to do. */
  lemma CompletingKeepsOrder(g: Graph, i: nat, now: Timestamp)
    requires Topological(g) && Orderly(g) && i < |g.nodes| && IsRunnable(g, g.nodes[i])
    ensures var h := CompletedBy(g, g.nodes[i].phase, now);
      Topological(h) && Orderly(h) && SameShape(g, h) && QueuedCount(g.nodes) == QueuedCount(h.nodes) + 1
  {
    hide StatusOf, Satisfied, QueuedCount;
    var h := CompletedBy(g, g.nodes[i].phase, now);
    assert forall k :: 0 <= k < |g.nodes| && k != i ==> h.nodes[k] == g.nodes[k];
    OneFewerQueued(g.nodes, h.nodes, i);
    forall k | 0 <= k < |h.nodes| && h.nodes[k].status == Completed ensures Satisfied(h, h.nodes[k]) {
      SatisfiedKept(g, h, g.nodes[k], h.nodes[k]);
    }
    SameShapeTopological(g, h);
  }

  lemma SameShapeTopological(g: Graph, h: Graph)
    requires Topological(g) && SameShape(g, h)
    ensures Topological(h)
  {
    forall i, k | 0 <= i < |h.nodes| && 0 <= k < |h.nodes[i].dependencies|
      ensures Earlier(h, i, h.nodes[i].dependencies[k])
    {
      assert Earlier(g, i, g.nodes[i].dependencies[k]);
      var j :| 0 <= j < i && j < |g.nodes| && g.nodes[j].id == g.nodes[i].dependencies[k];
      assert h.nodes[j].id == g.nodes[j].id;
    }
  }

  /** Completing, one after the other, nodes that can run when their turn comes; `picks` are positions. */
  ghost predicate Schedule(g: Graph, picks: seq<nat>, now: Timestamp)
    decreases |picks|
  {
    picks == []
    || (picks[0] < |g.nodes| && IsRunnable(g, g.nodes[picks[0]])
        && Schedule(CompletedBy(g, g.nodes[picks[0]].phase, now), picks[1..], now))
  }

  ghost function Drained(g: Graph, picks: seq<nat>, now: Timestamp): Graph
    requires Schedule(g, picks, now)
    decreases |picks|
  {
    if picks == [] then g else Drained(CompletedBy(g, g.nodes[picks[0]].phase, now), picks[1..], now)
  }

  /** Every schedule stays orderly, never ahead of a dependency, and takes one step for each node that was queued: it
      is finished exactly when it is that long, and until then it can go on. */
  lemma {:induction false} DrainsInStep(g: Graph, picks: seq<nat>, now: Timestamp)
    requires Topological(g) && Orderly(g) && Schedule(g, picks, now)
    ensures var h := Drained(g, picks, now);
      && Topological(h) && Orderly(h) && SameShape(g, h)
      && QueuedCount(g.nodes) == QueuedCount(h.nodes) + |picks|
      && (|picks| == QueuedCount(g.nodes) <==> forall i :: 0 <= i < |h.nodes| ==> h.nodes[i].status == Completed)
      && (|picks| < QueuedCount(g.nodes) <==> Runnable(h) != [])
    decreases |picks|
  {
    hide Orderly, Topological, QueuedCount, Runnable, CompletedBy;
    if picks == [] {
      SomethingRuns(g);
    } else {
      hide IsRunnable;
      CompletingKeepsOrder(g, picks[0], now);
      DrainsInStep(CompletedBy(g, g.nodes[picks[0]].phase, now), picks[1..], now);
    }
  }

  // ---------------------------------------------------------------- counts

  function CountStatus(nodes: seq<Node>, status: Status): nat {
    if nodes == [] then 0
    else CountStatus(nodes[..|nodes| - 1], status) + (if nodes[|nodes| - 1].status == status then 1 else 0)
  }

  /** `graph_summary`: the six status counts account for every node. */
  lemma {:induction false} CountsPartition(nodes: seq<Node>)
    ensures CountStatus(nodes, Queued) + CountStatus(nodes, Running) + CountStatus(nodes, Retrying)
          + CountStatus(nodes, Completed) + CountStatus(nodes, Failed) + CountStatus(nodes, Skipped) == |nodes|
  {
    if nodes != [] { CountsPartition(nodes[..|nodes| - 1]); }
  }
}
