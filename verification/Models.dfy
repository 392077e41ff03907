/** The workflow records of backend/models.py and the agent plan of backend/agents.py. */
module Models {
  import opened Wrappers

  type Id = string

  /** Microseconds; isoformat text of UTC times sorts the way the times do. */
  type Timestamp = int

  datatype Status = Queued | Running | Retrying | Completed | Failed | Skipped

  datatype Stage = Planning | SchemaAnalysis | SqlGeneration | Validation | Execution | InsightGeneration

  const WORKFLOW_STAGES: seq<Stage> :=
    [Planning, SchemaAnalysis, SqlGeneration, Validation, Execution, InsightGeneration]

  /** The stage an agent is assigned to; four agents work outside the six workflow stages. */
  datatype AgentStage = OnStage(stage: Stage) | OnReflection | OnAnomaly | OnInvestigation | OnBriefing

  datatype AgentName =
    | PlannerAgent | SchemaAgent | SqlAgent | ValidationAgent | ReflectionAgent
    | ExecutionAgent | InsightAgent | AnomalyAgent | InvestigationAgent | BriefingAgent

  datatype TokenUsage = TokenUsage(prompt: nat, completion: nat, total: nat)

  datatype Telemetry = Telemetry(
    startedAt: Option<Timestamp>, completedAt: Option<Timestamp>, latencyMs: Option<nat>,
    costUsd: real, usage: TokenUsage)

  const NO_TELEMETRY := Telemetry(None, None, None, 0.0, TokenUsage(0, 0, 0))

  datatype StageProgress = StageProgress(stage: Stage, status: Status, timestamp: Timestamp)

  datatype Agent = Agent(name: AgentName, stage: AgentStage, status: Status)

  datatype Trace = Trace(timestamp: Timestamp, source: AgentName, target: AgentName, context: string)

  datatype Workflow = Workflow(
    id: Id, org: string, workspace: string, user: string, question: string, status: Status,
    createdAt: Timestamp, telemetry: Telemetry, currentStage: Option<Stage>,
    stages: seq<StageProgress>, agents: seq<Agent>)

  datatype EventType =
    | WorkflowCreated | LifecycleTransition | StageTransition | TelemetryUpdate | AgentHandoff | InvestigationUpdate

  /** The message texts the service writes, one constructor per text template. */
  datatype Message =
    | CreatedFor(question: string)
    | StatusChanged(status: Status)
    | TelemetryUpdated(status: Status)
    | HandedOff(source: AgentName, target: AgentName)
    | InvestigationTriggered
    | StageCompleted(stage: Stage)
    | AgentCompleted(name: AgentName, on: AgentStage)
    | TelemetryStarted
    | TelemetryCompleted
    | InvestigationPlaceholder

  datatype Event = Event(timestamp: Timestamp, kind: EventType, message: Message)

  datatype UpdateType =
    | WorkflowEventUpdate | LifecycleUpdate | StageUpdate | AgentUpdate | TelemetryStreamUpdate
    | InvestigationStreamUpdate

  datatype Payload =
    | OfEvent(event: Event) | OfStage(progress: StageProgress) | OfAgent(agent: Agent)
    | OfStart(startedAt: Timestamp) | OfTelemetry(telemetry: Telemetry) | OfPlaceholder(id: Id)

  datatype Update = Update(timestamp: Timestamp, kind: UpdateType, message: Message, payload: Payload)

  datatype AgentPolicy = AgentPolicy(reflection: bool, anomalyInvestigation: bool, executiveBriefing: bool)

  const DEFAULT_POLICY := AgentPolicy(true, true, true)

  function AssignedStage(name: AgentName): AgentStage {
    match name
    case PlannerAgent => OnStage(Planning)
    case SchemaAgent => OnStage(SchemaAnalysis)
    case SqlAgent => OnStage(SqlGeneration)
    case ValidationAgent => OnStage(Validation)
    case ReflectionAgent => OnReflection
    case ExecutionAgent => OnStage(Execution)
    case InsightAgent => OnStage(InsightGeneration)
    case AnomalyAgent => OnAnomaly
    case InvestigationAgent => OnInvestigation
    case BriefingAgent => OnBriefing
  }

  function StageAgent(stage: Stage): AgentName {
    match stage
    case Planning => PlannerAgent
    case SchemaAnalysis => SchemaAgent
    case SqlGeneration => SqlAgent
    case Validation => ValidationAgent
    case Execution => ExecutionAgent
    case InsightGeneration => InsightAgent
  }

  /** The agents a stage runs, in hand-off order. */
  function AgentNames(stage: Stage, policy: AgentPolicy): (names: seq<AgentName>)
    ensures names != [] && names[0] == StageAgent(stage)
  {
    [StageAgent(stage)]
    + (if stage == Validation && policy.reflection then [ReflectionAgent] else [])
    + (if stage == InsightGeneration && policy.anomalyInvestigation then [AnomalyAgent, InvestigationAgent] else [])
    + (if stage == InsightGeneration && policy.executiveBriefing then [BriefingAgent] else [])
  }

  function Executions(names: seq<AgentName>): (agents: seq<Agent>)
    ensures |agents| == |names|
  {
    seq(|names|, i requires 0 <= i < |names| => Agent(names[i], AssignedStage(names[i]), Completed))
  }

  /** The `i`-th reading an operation takes of the clock. The readings are arbitrary; a list too
      short to serve one serves 0. */
  function Reading(clock: seq<Timestamp>, i: nat): Timestamp {
    if i < |clock| then clock[i] else 0
  }

  function Handoffs(names: seq<AgentName>, question: string, clock: seq<Timestamp>): (traces: seq<Trace>)
    requires names != []
    ensures |traces| == |names| - 1
  {
    var context := if |question| <= 240 then question else question[..240];
    seq(|names| - 1, i requires 0 <= i < |names| - 1 => Trace(Reading(clock, i), names[i], names[i + 1], context))
  }
}
