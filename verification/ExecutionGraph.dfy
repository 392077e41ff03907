/** The graph a recorded workflow is replayed into (backend/execution_graph.py), and what it shows. */
module ExecutionGraph {
  import opened Wrappers
  import opened Models
  import opened Scheduler
  import Service
  import Sorting
  import Stores

  function PhaseOf(stage: Stage): string {
    match stage
    case Planning => "planner"
    case SchemaAnalysis => "schema retrieval"
    case SqlGeneration => "sql generation"
    case Validation => "validation"
    case Execution => "execution"
    case InsightGeneration => "autonomous insight"
  }

  /** The position of a stage's node in the default sequence; no stage has the memory node's. */
  function PlaceOf(stage: Stage): nat {
    match stage
    case Planning => 0
    case SchemaAnalysis => 1
    case SqlGeneration => 3
    case Validation => 4
    case Execution => 6
    case InsightGeneration => 7
  }

  /** `stage_confidence(status=..., signals=2)`. */
  function StageConfidence(status: Status): real {
    if status == Failed then 0.45 else if status == Skipped then 0.5 else 0.82
  }

  function StageMove(g: Graph, progress: StageProgress, now: Timestamp): Graph {
    Transitioned(Some(g), PhaseOf(progress.stage), progress.status, Some(StageConfidence(progress.status)), 0, now)
  }

  /** Each transition takes its own reading of the clock. */
  function Replayed(stages: seq<StageProgress>, clock: seq<Timestamp>): Graph {
    if stages == [] then BuildGraph(DEFAULT_SEQUENCE, Reading(clock, 0))
    else StageMove(Replayed(stages[..|stages| - 1], clock), stages[|stages| - 1], Reading(clock, |stages|))
  }

  predicate Optional(node: Node) {
    node.status == Queued && (node.phase == "reflection" || node.phase == "investigation")
  }

  function MarkTerminal(g: Graph): Graph {
    g.(nodes := seq(|g.nodes|, i requires 0 <= i < |g.nodes| =>
      if Optional(g.nodes[i])
      then g.nodes[i].(status := Skipped, completedAt := Some(g.updatedAt), confidence := StageConfidence(Skipped))
      else g.nodes[i]))
  }

  function GraphOf(w: Workflow, clock: seq<Timestamp>): Graph {
    var g := Replayed(w.stages, clock);
    if w.status == Completed || w.status == Failed then MarkTerminal(g) else g
  }

  /** `execution_graph_from_workflow` without its metadata. */
  method ExecutionGraphFromWorkflow(w: Workflow, clock: seq<Timestamp>) returns (graph: Graph)
    ensures graph == GraphOf(w, clock)
  {
    hide BuildGraph, Transitioned;
    graph := BuildGraph(DEFAULT_SEQUENCE, Reading(clock, 0));
    for i := 0 to |w.stages|
      invariant graph == Replayed(w.stages[..i], clock)
    {
      assert w.stages[..i + 1][..i] == w.stages[..i];
      var progress := w.stages[i];
      graph := Transition(Some(graph), PhaseOf(progress.stage), progress.status,
                          Some(StageConfidence(progress.status)), 0, Reading(clock, i + 1));
    }
    assert w.stages[..|w.stages|] == w.stages;
    if w.status == Completed || w.status == Failed { graph := MarkTerminalOptionalNodes(graph); }
  }

  method MarkTerminalOptionalNodes(g: Graph) returns (r: Graph)
    ensures r == MarkTerminal(g) && SameShape(g, r)
  {
    var nodes := [];
    for i := 0 to |g.nodes|
      invariant nodes == MarkTerminal(g).nodes[..i]
    {
      var updated := g.nodes[i];
      if Optional(updated) {
        updated := updated.(status := Skipped, completedAt := Some(g.updatedAt),
                            confidence := StageConfidence(Skipped));
      }
      nodes := nodes + [updated];
    }
    r := g.(nodes := nodes);
  }

  // ---------------------------------------------------------------- what the replay shows

  /** The status a stage was last recorded with; queued if it never was. */
  function LastStatus(stages: seq<StageProgress>, place: nat): Status {
    if stages == [] then Queued
    else if PlaceOf(stages[|stages| - 1].stage) == place then stages[|stages| - 1].status
    else LastStatus(stages[..|stages| - 1], place)
  }

  /** The nine default nodes, in their places. */
  ghost predicate DefaultShape(g: Graph): (r: bool)
    ensures r ==> |g.nodes| == 9
  {
    && |g.nodes| == 9
    && forall i :: 0 <= i < 9 ==>
         g.nodes[i].id == DEFAULT_SEQUENCE[i].id && g.nodes[i].phase == DEFAULT_SEQUENCE[i].phase
         && g.nodes[i].dependencies == DEFAULT_SEQUENCE[i].dependencies
  }

  lemma OnePlace(stage: Stage, i: nat)
    requires i < 9
    ensures DEFAULT_SEQUENCE[i].phase == PhaseOf(stage) <==> i == PlaceOf(stage)
  {
  }

  lemma DistinctIds()
    ensures forall i, j :: 0 <= i < j < 9 ==> DEFAULT_SEQUENCE[i].id != DEFAULT_SEQUENCE[j].id
  {
  }

  /** Node by node, the replayed graph shows the last status recorded for its stage. */
  lemma {:induction false} ReplayShows(stages: seq<StageProgress>, clock: seq<Timestamp>)
    ensures var g := Replayed(stages, clock);
      DefaultShape(g) && g.edges == BuildEdges(DEFAULT_SEQUENCE)
      && forall i :: 0 <= i < 9 ==> g.nodes[i].status == LastStatus(stages, i)
  {
    if stages != [] {
      ReplayShows(stages[..|stages| - 1], clock);
      hide Replayed, BuildEdges;
      var before, last := Replayed(stages[..|stages| - 1], clock), stages[|stages| - 1];
      forall i | 0 <= i < 9
        ensures StageMove(before, last, Reading(clock, |stages|)).nodes[i].status
             == if i == PlaceOf(last.stage) then last.status else before.nodes[i].status
      {
        OnePlace(last.stage, i);
      }
    }
  }

  /** The graph of a workflow: what the replay shows, save that two optional nodes may have been marked skipped. */
  lemma {:induction false} GraphShows(w: Workflow, clock: seq<Timestamp>)
    ensures var g := GraphOf(w, clock);
      DefaultShape(g) && SameShape(Replayed(w.stages, clock), g)
      && forall i :: 0 <= i < 9 ==>
           g.nodes[i].status == if (w.status == Completed || w.status == Failed) && (i == 5 || i == 8) then Skipped
                                else LastStatus(w.stages, i)
  {
    ReplayShows(w.stages, clock);
    NeverReplayed(w.stages);
    hide Replayed, LastStatus, StageConfidence;
    forall i | 0 <= i < 9
      ensures DEFAULT_SEQUENCE[i].phase == "reflection" || DEFAULT_SEQUENCE[i].phase == "investigation"
        <==> i == 5 || i == 8
    {
      OptionalPlaces(i);
    }
  }

  lemma OptionalPlaces(i: nat)
    requires i < 9
    ensures DEFAULT_SEQUENCE[i].phase == "reflection" || DEFAULT_SEQUENCE[i].phase == "investigation"
      <==> i == 5 || i == 8
  {
  }

  /** No stage moves the memory, reflection or investigation node. */
  lemma {:induction false} NeverReplayed(stages: seq<StageProgress>)
    ensures LastStatus(stages, 2) == LastStatus(stages, 5) == LastStatus(stages, 8) == Queued
  {
    if stages != [] { NeverReplayed(stages[..|stages| - 1]); }
  }

  /** Every default node but the first depends on exactly one other. */
  function ParentOf(i: nat): nat {
    if i == 0 then 0 else if i == 6 then 4 else i - 1
  }

  lemma OneParent(i: nat)
    requires 0 < i < 9
    ensures DEFAULT_SEQUENCE[i].dependencies == [DEFAULT_SEQUENCE[ParentOf(i)].id]
  {
  }

  lemma StatusAtPlace(g: Graph, i: nat)
    requires DefaultShape(g) && i < 9
    ensures StatusOf(g.nodes, DEFAULT_SEQUENCE[i].id) == Some(g.nodes[i].status)
  {
    DistinctIds();
    StatusAt(g.nodes, i);
  }

  /** What a node waits for in a default-shaped graph: its one parent. */
  lemma WaitsForParent(g: Graph, i: nat)
    requires DefaultShape(g) && i < 9
    ensures Satisfied(g, g.nodes[i]) <==> i == 0 || g.nodes[ParentOf(i)].status == Completed
    ensures DependsOnSkipped(g, g.nodes[i]) <==> i > 0 && g.nodes[ParentOf(i)].status == Skipped
  {
    if i == 0 {
      assert DEFAULT_SEQUENCE[0].dependencies == [];
    } else {
      OneParent(i);
      StatusAtPlace(g, ParentOf(i));
      hide StatusOf;
      assert g.nodes[i].dependencies[0] == DEFAULT_SEQUENCE[ParentOf(i)].id;
    }
  }

  /** No node is completed ahead of a dependency. */
  ghost predicate DependencyClosed(g: Graph) {
    forall i :: 0 <= i < |g.nodes| && g.nodes[i].status == Completed ==> Satisfied(g, g.nodes[i])
  }

  /** The stage was recorded. */
  predicate Recorded(stages: seq<StageProgress>, stage: Stage) {
    exists i :: 0 <= i < |stages| && stages[i].stage == stage
  }

  predicate AllCompleted(stages: seq<StageProgress>) {
    forall i :: 0 <= i < |stages| ==> stages[i].status == Completed
  }

  lemma {:induction false} CompletedIffRecorded(stages: seq<StageProgress>, stage: Stage)
    requires AllCompleted(stages)
    ensures LastStatus(stages, PlaceOf(stage)) == if Recorded(stages, stage) then Completed else Queued
  {
    if stages != [] {
      CompletedIffRecorded(stages[..|stages| - 1], stage);
      assert forall i :: 0 <= i < |stages| - 1 ==> stages[..|stages| - 1][i] == stages[i];
    }
  }

  function DoneIf(recorded: bool): Status { if recorded then Completed else Queued }

  /** The statuses of a graph replayed from completed stages. */
  ghost predicate ShowsRecorded(g: Graph, stages: seq<StageProgress>)
    requires |g.nodes| == 9
  {
    && g.nodes[0].status == DoneIf(Recorded(stages, Planning))
    && g.nodes[1].status == DoneIf(Recorded(stages, SchemaAnalysis))
    && g.nodes[2].status == Queued
    && g.nodes[3].status == DoneIf(Recorded(stages, SqlGeneration))
    && g.nodes[4].status == DoneIf(Recorded(stages, Validation))
    && g.nodes[5].status != Completed
    && g.nodes[6].status == DoneIf(Recorded(stages, Execution))
    && g.nodes[7].status == DoneIf(Recorded(stages, InsightGeneration))
    && g.nodes[8].status != Completed
  }

  lemma CompletedStages(w: Workflow, clock: seq<Timestamp>)
    requires AllCompleted(w.stages)
    ensures DefaultShape(GraphOf(w, clock)) && ShowsRecorded(GraphOf(w, clock), w.stages)
  {
    GraphShows(w, clock);
    NeverReplayed(w.stages);
    hide GraphOf, DefaultShape, LastStatus, AllCompleted, Recorded, SameShape;
    CompletedIffRecorded(w.stages, Planning);
    CompletedIffRecorded(w.stages, SchemaAnalysis);
    CompletedIffRecorded(w.stages, SqlGeneration);
    CompletedIffRecorded(w.stages, Validation);
    CompletedIffRecorded(w.stages, Execution);
    CompletedIffRecorded(w.stages, InsightGeneration);
  }

  ghost predicate WaitsInLine(g: Graph)
    requires |g.nodes| == 9
  {
    forall i :: 0 <= i < 9 ==> (Satisfied(g, g.nodes[i]) <==> i == 0 || g.nodes[ParentOf(i)].status == Completed)
  }

  lemma AllWaitForParents(g: Graph)
    requires DefaultShape(g)
    ensures WaitsInLine(g)
  {
    hide DefaultShape, Satisfied;
    forall i | 0 <= i < 9 ensures Satisfied(g, g.nodes[i]) <==> i == 0 || g.nodes[ParentOf(i)].status == Completed {
      WaitsForParent(g, i);
    }
  }

  /** No stage completes the memory node, so a replayed graph keeps its dependencies exactly as long as only the first
      two stages are recorded, the second not without the first. */
  lemma ClosedIff(w: Workflow, clock: seq<Timestamp>)
    requires AllCompleted(w.stages)
    ensures DependencyClosed(GraphOf(w, clock)) <==>
      && (forall i :: 0 <= i < |w.stages| ==> w.stages[i].stage == Planning || w.stages[i].stage == SchemaAnalysis)
      && (Recorded(w.stages, SchemaAnalysis) ==> Recorded(w.stages, Planning))
  {
    hide GraphOf, DefaultShape, DependencyClosed, ShowsRecorded, WaitsInLine;
    CompletedStages(w, clock);
    AllWaitForParents(GraphOf(w, clock));
    ClosedOnPlaces(GraphOf(w, clock), w.stages);
    assert forall i :: 0 <= i < |w.stages| ==> Recorded(w.stages, w.stages[i].stage);
  }

  lemma ClosedOnPlaces(g: Graph, stages: seq<StageProgress>)
    requires DefaultShape(g) && ShowsRecorded(g, stages) && WaitsInLine(g)
    ensures DependencyClosed(g) <==>
      && !Recorded(stages, SqlGeneration) && !Recorded(stages, Validation) && !Recorded(stages, Execution)
      && !Recorded(stages, InsightGeneration) && (Recorded(stages, SchemaAnalysis) ==> Recorded(stages, Planning))
  {
    hide DefaultShape, Recorded, Satisfied, StatusOf;
    assert ParentOf(7) == 6 && ParentOf(6) == 4 && ParentOf(4) == 3 && ParentOf(3) == 2 && ParentOf(1) == 0;
  }

  /** Nothing depends on a node that is only ever skipped, so in a replayed graph ready and runnable agree. */
  lemma ReadyIsRunnable(w: Workflow, clock: seq<Timestamp>, i: nat)
    requires AllCompleted(w.stages) && i < 9
    ensures var g := GraphOf(w, clock);
      DefaultShape(g) && (IsReady(g, g.nodes[i]) <==> IsRunnable(g, g.nodes[i]))
  {
    var g := GraphOf(w, clock);
    GraphShows(w, clock);
    NeverReplayed(w.stages);
    NeverSkipped(w.stages, ParentOf(i));
    hide GraphOf, IsReady, IsRunnable, DependsOnSkipped;
    WaitsForParent(g, i);
    ReadyOrRunnable(g, g.nodes[i]);
  }

  lemma {:induction false} NeverSkipped(stages: seq<StageProgress>, place: nat)
    requires AllCompleted(stages)
    ensures LastStatus(stages, place) != Skipped
  {
    if stages != [] { NeverSkipped(stages[..|stages| - 1], place); }
  }

  /** After all six stages the memory node is the one node that still claims to be runnable. */
  lemma OnlyMemoryRuns(w: Workflow, clock: seq<Timestamp>, i: nat)
    requires AllCompleted(w.stages) && (forall stage: Stage :: Recorded(w.stages, stage)) && w.status == Completed
    requires i < 9
    ensures var g := GraphOf(w, clock);
      DefaultShape(g) && (IsRunnable(g, g.nodes[i]) <==> i == 2)
  {
    var g := GraphOf(w, clock);
    GraphShows(w, clock);
    hide GraphOf, DefaultShape, Satisfied, Recorded, SameShape, LastStatus;
    CompletedStages(w, clock);
    AllWaitForParents(g);
    assert Recorded(w.stages, Planning) && Recorded(w.stages, SchemaAnalysis) && Recorded(w.stages, SqlGeneration);
    assert Recorded(w.stages, Validation) && Recorded(w.stages, Execution) && Recorded(w.stages, InsightGeneration);
  }

  // ---------------------------------------------------------------- what the service records

  predicate AgentsCompleted(agents: seq<Agent>) {
    forall i :: 0 <= i < |agents| ==> agents[i].status == Completed
  }

  ghost predicate RecordsCompleted(s: Stores.Stores) {
    && (forall id :: id in s.workflows ==> AllCompleted(s.workflows[id].stages))
    && (forall id :: id in s.agents ==> AgentsCompleted(s.agents[id]))
  }

  lemma {:induction false} SavesKeepCompleted(s: Service.State, writes: seq<Stores.Write>)
    requires RecordsCompleted(s.stores)
    requires forall i :: 0 <= i < |writes| && writes[i].Save? ==>
      AllCompleted(writes[i].workflow.stages) && AgentsCompleted(writes[i].workflow.agents)
    ensures RecordsCompleted(Service.PerformAll(s, writes).stores)
  {
    hide AllCompleted, AgentsCompleted;
    if writes != [] { SavesKeepCompleted(s, writes[..|writes| - 1]); }
  }

  lemma OperationKeepsCompleted(s: Service.State, op: Service.Op)
    requires RecordsCompleted(s.stores)
    ensures RecordsCompleted(Service.Apply(s, op).stores)
  {
    if !op.ReadStream? {
      var found := Stores.GetWorkflow(s.stores, op.id);
      assert found.Some? ==> AllCompleted(found.value.stages) && AgentsCompleted(found.value.agents);
      SavesKeepCompleted(s, Service.Writes(s.stores, op));
    }
  }

  /** Every stage and every agent the service ever records is completed, so the results above hold of every workflow it
      stores. */
  lemma {:induction false} RunRecordsCompleted(s: Service.State, ops: seq<Service.Op>)
    requires RecordsCompleted(s.stores)
    ensures RecordsCompleted(Service.Run(s, ops).stores)
    decreases |ops|
  {
    hide RecordsCompleted, Service.Apply;
    if ops != [] {
      OperationKeepsCompleted(s, ops[0]);
      RunRecordsCompleted(Service.Apply(s, ops[0]), ops[1..]);
    }
  }

  // ---------------------------------------------------------------- replay frames

  function StageText(stage: Stage): string {
    match stage
    case Planning => "planning"
    case SchemaAnalysis => "schema_analysis"
    case SqlGeneration => "sql_generation"
    case Validation => "validation"
    case Execution => "execution"
    case InsightGeneration => "insight_generation"
  }

  function AgentStageText(stage: AgentStage): string {
    match stage
    case OnStage(s) => StageText(s)
    case OnReflection => "reflection"
    case OnAnomaly => "anomaly_detection"
    case OnInvestigation => "investigation"
    case OnBriefing => "executive_briefing"
  }

  function StatusText(status: Status): string {
    match status
    case Queued => "queued"
    case Running => "running"
    case Retrying => "retrying"
    case Completed => "completed"
    case Failed => "failed"
    case Skipped => "skipped"
  }

  function EventTypeText(kind: EventType): string {
    match kind
    case WorkflowCreated => "workflow_created"
    case LifecycleTransition => "lifecycle_transition"
    case StageTransition => "stage_transition"
    case TelemetryUpdate => "telemetry_update"
    case AgentHandoff => "agent_handoff"
    case InvestigationUpdate => "investigation_update"
  }

  function UpdateTypeText(kind: UpdateType): string {
    match kind
    case WorkflowEventUpdate => "workflow_event"
    case LifecycleUpdate => "lifecycle_transition"
    case StageUpdate => "stage_transition"
    case AgentUpdate => "agent_update"
    case TelemetryStreamUpdate => "telemetry_update"
    case InvestigationStreamUpdate => "investigation_update"
  }

  /** The stage, assigned stage or event type in the payload, else the type of the update. */
  function FramePhase(u: Update): string {
    match u.payload
    case OfStage(progress) => StageText(progress.stage)
    case OfAgent(agent) => AgentStageText(agent.stage)
    case OfEvent(event) => EventTypeText(event.kind)
    case _ => UpdateTypeText(u.kind)
  }

  /** The status or agent status in the payload, else the type of the update. */
  function FrameStatus(u: Update): string {
    match u.payload
    case OfStage(progress) => StatusText(progress.status)
    case OfAgent(agent) => StatusText(agent.status)
    case OfPlaceholder(_) => "not_started"
    case _ => UpdateTypeText(u.kind)
  }

  datatype Frame = Frame(sequence: nat, phase: string, status: string, update: Update, elapsedMs: nat)

  /** Whole milliseconds between two times, none backwards. */
  function ElapsedMs(previous: Timestamp, current: Timestamp): (ms: nat)
    ensures current >= previous ==> 1000 * ms <= current - previous < 1000 * ms + 1000
  {
    if current <= previous then 0 else (current - previous) / 1000
  }

  method ReplayFramesFromUpdates(updates: seq<Update>) returns (frames: seq<Frame>)
    ensures |frames| == |updates|
    ensures forall i :: 0 <= i < |frames| ==> frames[i].sequence == i + 1 && frames[i].update == updates[i]
    ensures forall i :: 0 <= i < |frames| ==>
      frames[i].phase == FramePhase(updates[i]) && frames[i].status == FrameStatus(updates[i])
    ensures forall i :: 0 <= i < |frames| ==>
      frames[i].elapsedMs == if i == 0 then 0 else ElapsedMs(updates[i - 1].timestamp, updates[i].timestamp)
  {
    hide FramePhase, FrameStatus, ElapsedMs;
    frames := [];
    for i := 0 to |updates|
      invariant |frames| == i
      invariant forall k :: 0 <= k < i ==> frames[k].sequence == k + 1 && frames[k].update == updates[k]
      invariant forall k :: 0 <= k < i ==>
        frames[k].phase == FramePhase(updates[k]) && frames[k].status == FrameStatus(updates[k])
      invariant forall k :: 0 <= k < i ==>
        frames[k].elapsedMs == if k == 0 then 0 else ElapsedMs(updates[k - 1].timestamp, updates[k].timestamp)
    {
      var elapsed := if frames == [] then 0 else ElapsedMs(frames[|frames| - 1].update.timestamp, updates[i].timestamp);
      frames := frames + [Frame(i + 1, FramePhase(updates[i]), FrameStatus(updates[i]), updates[i], elapsed)];
    }
  }

  function ElapsedTotal(updates: seq<Update>): nat {
    if |updates| <= 1 then 0
    else ElapsedTotal(updates[..|updates| - 1])
         + ElapsedMs(updates[|updates| - 2].timestamp, updates[|updates| - 1].timestamp)
  }

  /** For updates in time order the elapsed times add up to the whole span, short of it by less than a millisecond
      a frame. */
  lemma {:induction false} ElapsedSpans(updates: seq<Update>)
    requires updates != [] && forall i :: 0 < i < |updates| ==> updates[i - 1].timestamp <= updates[i].timestamp
    ensures var span := updates[|updates| - 1].timestamp - updates[0].timestamp;
      1000 * ElapsedTotal(updates) <= span < 1000 * ElapsedTotal(updates) + 1000 * |updates|
  {
    if |updates| > 1 { ElapsedSpans(updates[..|updates| - 1]); }
  }

  /** In the replay of a workflow whose stages and agents are completed a frame says completed exactly if it shows a
      stage or an agent; every other frame repeats the type of its update. */
  lemma FrameStatuses(v: Service.View, clock: seq<Timestamp>, u: Update)
    requires AllCompleted(v.workflow.stages) && AgentsCompleted(v.workflow.agents)
    requires u in Service.StreamUpdates(v, clock)
    ensures FrameStatus(u)
         == if u.kind == StageUpdate || u.kind == AgentUpdate then "completed" else UpdateTypeText(u.kind)
  {
    Sorting.SortMembers(Service.UpdateKey, Service.Unsorted(v, clock));
    KindHas(v.events, EventType.LifecycleTransition, LifecycleUpdate);
    KindHas(v.events, EventType.InvestigationUpdate, InvestigationStreamUpdate);
    hide Sorting.SortBy, Service.UpdatesOfKind, Service.StageTime, UpdateTypeText;
  }

  /** So it is in the replay of every workflow, after every sequence of operations. */
  lemma {:induction false} FramesAfterRun(ops: seq<Service.Op>, id: Id, clock: seq<Timestamp>, u: Update)
    requires Service.ViewOf(Service.Run(Service.EMPTY, ops).stores, id).Some?
    requires u in Service.StreamUpdates(Service.ViewOf(Service.Run(Service.EMPTY, ops).stores, id).value, clock)
    ensures FrameStatus(u)
         == if u.kind == StageUpdate || u.kind == AgentUpdate then "completed" else UpdateTypeText(u.kind)
  {
    NothingRecorded();
    RunRecordsCompleted(Service.EMPTY, ops);
    hide Service.Run, Service.StreamUpdates, FrameStatus, UpdateTypeText, AllCompleted, AgentsCompleted;
    FrameStatuses(Service.ViewOf(Service.Run(Service.EMPTY, ops).stores, id).value, clock, u);
  }

  lemma NothingRecorded()
    ensures RecordsCompleted(Service.EMPTY.stores)
  {
  }

  lemma {:induction false} KindHas(events: seq<Event>, source: EventType, kind: UpdateType)
    ensures forall u :: u in Service.UpdatesOfKind(events, source, kind) ==> u.kind == kind && u.payload.OfEvent?
  {
    if events != [] { KindHas(events[1..], source, kind); }
  }
}
