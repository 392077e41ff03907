/** The nodes of the self-correcting SQL workflow (graph/workflow.py): what each does to the shared state, given what
    the model and the database answer. */
module Workflow {
  import opened Wrappers
  import opened Text
  import opened Retry
  import Telemetry
  import Sql = SqlIntelligence
  import SchemaText

  datatype Row = Row(cells: seq<string>)

  datatype SchemaReply = Loaded(text: string) | Unavailable(message: string)

  /** What `run_query` and the bookkeeping after it come to: an exception of either lands in the same handler. */
  datatype Outcome = Rows(columns: seq<string>, rows: seq<Row>) | Raised(message: string)

  /** What a call costs, as the clients report it. */
  datatype Usage = Usage(
    model: string, prompt: Option<int>, completion: Option<int>, total: Option<int>, cost: Option<real>,
    latency: Option<int>, available: bool, fault: Telemetry.Fault, others: map<string, string>)

  /** Everything the environment may answer while one node runs. */
  datatype Answer = Answer(
    schema: SchemaReply, text: string, usage: Usage, outcome: Outcome)

  datatype TraceStatus = Success | Warned | Error | Retried | Skipped

  datatype TraceEntry = TraceEntry(step: StepName, status: TraceStatus)

  datatype RetryDecision = RetryDecision(shouldRetry: bool, delay: real)

  datatype State = State(
    schema: Option<string>, sql: Option<string>, columns: seq<string>, rows: seq<Row>, error: Option<string>,
    retryCount: nat, lastError: Option<string>, lastErrorSource: Option<StepName>, lastFailedSql: string,
    report: Option<Sql.Report>, recovery: Option<Strategy>, decision: Option<RetryDecision>, action: Option<Action>,
    trace: seq<TraceEntry>, telemetry: Telemetry.Payload, policy: RetryPolicy, floor: real)

  /** The calls that matter for safety, in the order they are made. */
  datatype Call = Checked(sql: string, accepted: bool) | Queried(sql: string, outcome: Outcome)

  datatype Run = Run(state: State, log: seq<Call>)

  function InitialRun(policy: RetryPolicy, floor: real, correlationId: string): Run {
    Run(State(None, None, [], [], None, 0, None, None, "", None, None, None, None, [],
              Telemetry.Payload(Telemetry.SCHEMA_VERSION, correlationId, [], 0, 0, 0, 0.0, 0, "", false,
                                Telemetry.NO_FAULT, map[]),
              policy, floor), [])
  }

  // ---------------------------------------------------------------- helpers of the nodes

  function TextOf(s: Option<string>): string { if s.Some? then s.value else "" }

  function OrElse(s: string, other: string): string { if s != "" then s else other }

  /** `retry_decision`. */
  function Decide(policy: RetryPolicy, retryCount: nat, error: Option<string>): RetryDecision {
    var should := ShouldRetry(policy, retryCount, error);
    RetryDecision(should, if should then RetryDelay(policy, retryCount + 1) else 0.0)
  }

  /** `_workflow_retry_decision`: an empty error falls back to the one in the state. */
  function RetryVerdict(s: State, error: string): RetryDecision {
    Decide(s.policy, s.retryCount, if error != "" then Some(error) else s.error)
  }

  function ErrorConfidence(retries: nat): real {
    var c := 0.45 - 0.1 * retries as real;
    if c >= 0.1 then c else 0.1
  }

  /** `_policy_decision` with an error. */
  function PolicyVerdict(s: State, step: StepName, confidence: real, error: string): Action {
    StageAction(step, confidence, s.retryCount, Some(error), s.floor, s.policy)
  }

  function StepText(step: StepName): string {
    match step
    case Planner => "planner"
    case SchemaRetrieval => "schema retrieval"
    case MemoryRetrieval => "memory retrieval"
    case SqlGeneration => "sql generation"
    case Validation => "validation"
    case Reflection => "reflection"
    case Execution => "execution"
  }

  function NewStep(step: StepName, u: Usage): Telemetry.Step {
    Telemetry.Step(StepText(step), u.model, u.prompt, u.completion, u.total, u.cost, u.latency, u.available,
                   u.fault, u.others)
  }

  /** Usage of a step that calls no model. */
  function Local(model: string, latency: Option<int>): Usage {
    Usage(model, Some(0), Some(0), Some(0), Some(0.0), latency, false, Telemetry.NO_FAULT, map[])
  }

  function Traced(s: State, step: StepName, status: TraceStatus): State {
    s.(trace := s.trace + [TraceEntry(step, status)])
  }

  function Measured(s: State, step: StepName, u: Usage): State {
    s.(telemetry := Telemetry.Record(s.telemetry, NewStep(step, u)))
  }

  /** The retry machinery's three verdicts on a failure, as validation and generation record them. */
  function Judged(s: State, step: StepName, error: string): State {
    s.(recovery := Some(RecoveryHint(error, s.retryCount, s.policy.maxRetries)),
       decision := Some(RetryVerdict(s, error)),
       action := Some(PolicyVerdict(s, step, ErrorConfidence(0), error)))
  }

  // ---------------------------------------------------------------- the nodes

  function PlannerNode(r: Run): Run {
    r.(state := Traced(r.state, Planner, Success))
  }

  function SchemaNode(r: Run, a: Answer): Run {
    var s := r.state;
    match a.schema
    case Loaded(text) => r.(state := Traced(s.(schema := Some(text)), SchemaRetrieval, Success))
    case Unavailable(message) =>
      r.(state := Traced(s.(error := Some("Schema retrieval failed: " + message),
                            recovery := Some(RecoveryHint(message, s.retryCount, s.policy.maxRetries))),
                         SchemaRetrieval, Error))
  }

  function MemoryNode(r: Run, a: Answer): Run {
    r.(state := Traced(Measured(r.state, MemoryRetrieval, Local("chromadb", a.usage.latency)),
                       MemoryRetrieval, Success))
  }

  /** The guard at the top of `sql_generation_node`. */
  predicate GuardFires(s: State) {
    Truthy(s.error) && s.retryCount > s.policy.maxRetries
  }

  predicate NoSql(sql: string) {
    sql == "" || StartsWith(sql, "ERROR:")
  }

  function GenerationNode(r: Run, a: Answer): Run {
    var s := r.state;
    if GuardFires(s) then r
    else
      var sql := Strip(a.text);
      var measured := Measured(s, SqlGeneration, a.usage);
      if NoSql(sql) then
        var error := OrElse(sql, "SQL generation failed.");
        r.(state := Traced(Judged(measured, SqlGeneration, error).(error := Some(error)), SqlGeneration, Error))
      else
        r.(state := Traced(measured.(sql := Some(sql), error := None, lastErrorSource := None),
                           SqlGeneration, Success))
  }

  function ErrorTexts(errors: seq<Sql.SqlError>): seq<string> {
    seq(|errors|, i requires 0 <= i < |errors| => Sql.ErrorText(errors[i]))
  }

  function ValidationFailed(s: State, error: string, sql: string): State {
    Traced(Judged(s, Validation, error).(error := Some(error), lastError := Some(error),
                                         lastErrorSource := Some(Validation), lastFailedSql := sql),
           Validation, Error)
  }

  function ReportOn(s: State): Sql.Report {
    Sql.Validate(Strip(TextOf(s.sql)), TextOf(s.schema))
  }

  function ValidationNode(r: Run): Run {
    var s := r.state;
    var sql := Strip(TextOf(s.sql));
    if sql == "" then r.(state := ValidationFailed(s, "No SQL was generated.", ""))
    else
      var report := ReportOn(s);
      var log := r.log + [Checked(sql, report.status != Sql.Failed)];
      if report.status == Sql.Failed then
        var error := OrElse(Join("; ", ErrorTexts(report.errors)), "SQL validation failed.");
        Run(ValidationFailed(s, error, sql).(report := Some(report)), log)
      else
        Run(Traced(s.(error := None, lastErrorSource := None, report := Some(report)), Validation,
                   if report.status == Sql.Passed then Success else Warned), log)
  }

  function ReflectionNode(r: Run, a: Answer): Run {
    var s := r.state;
    var corrected := Strip(a.text);
    var counted := Measured(s, Reflection, a.usage).(retryCount := s.retryCount + 1);
    if NoSql(corrected) then
      var error := OrElse(corrected, "Reflection failed to generate corrected SQL.");
      r.(state := Traced(counted.(
        error := Some(error),
        recovery := Some(RecoveryHint(error, counted.retryCount, s.policy.maxRetries)),
        decision := Some(RetryVerdict(counted.(error := Some(error)), error)),
        action := Some(PolicyVerdict(s, Reflection, ErrorConfidence(counted.retryCount), error))),
        Reflection, Error))
    else
      r.(state := Traced(counted.(sql := Some(corrected), error := None), Reflection, Retried))
  }

  predicate Reflected(trace: seq<TraceEntry>) {
    exists i :: 0 <= i < |trace| && trace[i].step == Reflection
  }

  function ReflectionSkipNode(r: Run): Run {
    if Reflected(r.state.trace) then r
    else r.(state := Traced(Measured(r.state, Reflection, Local("workflow", Some(0))), Reflection, Skipped))
  }

  /** Without SQL in the state the lookup itself raises, inside the handler. */
  function OutcomeOf(s: State, a: Answer): Outcome {
    if s.sql.Some? then a.outcome else Raised("'sql'")
  }

  function ExecutionNode(r: Run, a: Answer): Run {
    var s := Measured(r.state, Execution, Local("sqlite", a.usage.latency));
    var log := if s.sql.Some? then r.log + [Queried(s.sql.value, a.outcome)] else r.log;
    match OutcomeOf(s, a)
    case Rows(columns, rows) =>
      Run(Traced(s.(columns := columns, rows := rows, error := None, lastError := None, lastErrorSource := None),
                 Execution, Success), log)
    case Raised(message) =>
      var error := "SQL execution failed: " + message;
      Run(Traced(s.(columns := [], rows := [], error := Some(error), lastError := Some(message),
                    lastErrorSource := Some(Execution), lastFailedSql := TextOf(s.sql),
                    recovery := Some(RecoveryHint(message, s.retryCount, s.policy.maxRetries)),
                    decision := Some(RetryVerdict(s, message)),
                    action := Some(PolicyVerdict(s, Execution, ErrorConfidence(0), error))),
                 Execution, Error), log)
  }

  datatype Route = ToReflection | ToExecution | ToEnd

  function RouteAfterValidation(s: State): Route {
    if Truthy(s.error) then if RetryVerdict(s, TextOf(s.error)).shouldRetry then ToReflection else ToEnd
    else ToExecution
  }

  function RouteAfterExecution(s: State): Route {
    if Truthy(s.error) && RetryVerdict(s, TextOf(s.error)).shouldRetry then ToReflection else ToEnd
  }

  // ---------------------------------------------------------------- what is kept

  /** How many trace entries a step has left; reflections that were skipped do not count. */
  function Count(trace: seq<TraceEntry>, step: StepName): nat {
    if trace == [] then 0
    else
      var last := trace[|trace| - 1];
      Count(trace[..|trace| - 1], step) + (if last.step == step && last.status != Skipped then 1 else 0)
  }

  function Queries(log: seq<Call>): nat {
    if log == [] then 0 else Queries(log[..|log| - 1]) + (if log[|log| - 1].Queried? then 1 else 0)
  }

  /** Every query runs the very text the call just before it accepted. */
  ghost predicate Guarded(log: seq<Call>) {
    forall i :: 0 <= i < |log| && log[i].Queried? ==> i > 0 && log[i - 1] == Checked(log[i].sql, true)
  }

  /** Everything the validator accepted is acceptable under the schema. */
  ghost predicate Vetted(log: seq<Call>, schema: string) {
    forall i :: 0 <= i < |log| && log[i].Checked? && log[i].accepted ==> VettedSql(log[i].sql, schema)
  }

  ghost predicate VettedSql(sql: string, schema: string) {
    Sql.Acceptable(Sql.FenceStrip(sql), SchemaText.ParseSchema(schema))
  }

  predicate Metering(step: StepName) {
    step == MemoryRetrieval || step == SqlGeneration || step == Reflection || step == Execution
  }

  /** The steps of a trace that record telemetry, in order. */
  function MeteredSteps(trace: seq<TraceEntry>): seq<string> {
    if trace == [] then []
    else
      var last := trace[|trace| - 1];
      MeteredSteps(trace[..|trace| - 1]) + (if Metering(last.step) then [StepText(last.step)] else [])
  }

  function StepNames(steps: seq<Telemetry.Step>): seq<string> {
    seq(|steps|, i requires 0 <= i < |steps| => if steps[i].Step? then steps[i].name else "")
  }

  /** The payload adds up and has exactly one step for each trace entry that records one, in order. */
  ghost predicate Metered(s: State) {
    && Telemetry.IsClean(s.telemetry.steps) && Telemetry.Summed(s.telemetry)
    && StepNames(s.telemetry.steps) == MeteredSteps(s.trace)
  }

  /** The SQL in the state is stripped and not empty, and an error has a text. */
  ghost predicate Tidy(s: State) {
    && (s.sql.Some? ==> s.sql.value != "" && Strip(s.sql.value) == s.sql.value)
    && s.error != Some("")
  }

  /** Kept by every node of either driver. */
  ghost predicate Sound(r: Run) {
    && r.state.retryCount <= r.state.policy.maxRetries
    && Count(r.state.trace, Reflection) == r.state.retryCount
    && Count(r.state.trace, Execution) == Queries(r.log)
    && Guarded(r.log) && Vetted(r.log, TextOf(r.state.schema))
    && Metered(r.state) && Tidy(r.state)
  }

  /** Validation has just accepted the SQL in the state. */
  ghost predicate Cleared(r: Run) {
    && r.state.error == None && r.state.sql.Some?
    && r.log != [] && r.log[|r.log| - 1] == Checked(r.state.sql.value, true)
  }

  /** The last thing that happened is a query that succeeded, and the rows in the state are its rows. */
  ghost predicate Delivered(r: Run) {
    && r.state.sql.Some? && r.state.trace != [] && r.log != []
    && r.state.trace[|r.state.trace| - 1] == TraceEntry(Execution, Success)
    && r.log[|r.log| - 1] == Queried(r.state.sql.value, Rows(r.state.columns, r.state.rows))
  }

  /** How a run may end: without an error exactly when a query has delivered, and with rows only then. */
  ghost predicate Honest(r: Run) {
    && (r.state.error == None <==> Delivered(r))
    && (r.state.error == None <==>
          r.state.trace != [] && r.state.trace[|r.state.trace| - 1] == TraceEntry(Execution, Success))
    && (r.state.error != None ==> r.state.rows == [])
  }

  lemma {:induction false} CountSnoc(trace: seq<TraceEntry>, e: TraceEntry, step: StepName)
    ensures Count(trace + [e], step) == Count(trace, step) + (if e.step == step && e.status != Skipped then 1 else 0)
  {
    assert (trace + [e])[..|trace|] == trace;
  }

  lemma {:induction false} MeteredSnoc(trace: seq<TraceEntry>, e: TraceEntry)
    ensures MeteredSteps(trace + [e]) == MeteredSteps(trace) + (if Metering(e.step) then [StepText(e.step)] else [])
  {
    assert (trace + [e])[..|trace|] == trace;
  }

  /** Recording a step's telemetry and its trace entry together keeps the payload honest. */
  lemma MeasuredKeepsMetered(s: State, step: StepName, u: Usage, t: State)
    requires Metered(s) && Metering(step)
    requires t.telemetry == Measured(s, step, u).telemetry
    requires exists status :: t.trace == s.trace + [TraceEntry(step, status)]
    ensures Metered(t)
  {
    var status :| t.trace == s.trace + [TraceEntry(step, status)];
    MeteredSnoc(s.trace, TraceEntry(step, status));
    Telemetry.RecordAppends(s.telemetry, NewStep(step, u));
    hide Telemetry.Summed, Telemetry.IsClean, Telemetry.Record, MeteredSteps;
    assert StepNames(t.telemetry.steps) == StepNames(s.telemetry.steps) + [StepText(step)];
  }

  lemma UnmeteredKeepsMetered(s: State, step: StepName, status: TraceStatus, t: State)
    requires Metered(s) && !Metering(step)
    requires t.telemetry == s.telemetry && t.trace == s.trace + [TraceEntry(step, status)]
    ensures Metered(t)
  {
    hide Telemetry.Summed, Telemetry.IsClean;
    MeteredSnoc(s.trace, TraceEntry(step, status));
  }
}
