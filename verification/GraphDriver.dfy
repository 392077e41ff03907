/** The compiled workflow graph (graph/workflow.py, build_workflow): after a reflection it goes back to validation. */
module GraphDriver {
  import opened Wrappers
  import opened Text
  import opened Retry
  import opened Workflow
  import opened WorkflowNodes
  import SchemaText
  import Telemetry
  import Sql = SqlIntelligence

  datatype Phase =
    | AtPlanner | AtSchema | AtMemory | AtGeneration | AtValidation | AtSkip | AtExecution | AtReflection
    | Ended | Crashed

  /** `visits` counts the nodes entered so far. */
  datatype Machine = Machine(phase: Phase, run: Run, visits: nat)

  predicate Final(m: Machine) { m.phase == Ended || m.phase == Crashed }

  function Go(m: Machine, phase: Phase, run: Run): Machine {
    Machine(phase, run, m.visits + 1)
  }

  function AfterValidation(s: State): Phase {
    match RouteAfterValidation(s)
    case ToReflection => AtReflection
    case ToExecution => AtSkip
    case ToEnd => Ended
  }

  function AfterExecution(s: State): Phase {
    if RouteAfterExecution(s) == ToReflection then AtReflection else Ended
  }

  /** One node. Reading `state["schema"]` without a schema raises, which ends the run with an exception. */
  function Step(m: Machine, a: Answer): Machine {
    var r := m.run;
    match m.phase
    case AtPlanner => Go(m, AtSchema, PlannerNode(r))
    case AtSchema => Go(m, AtMemory, SchemaNode(r, a))
    case AtMemory => Go(m, AtGeneration, MemoryNode(r, a))
    case AtGeneration =>
      if r.state.schema == None && !GuardFires(r.state) then Go(m, Crashed, r)
      else Go(m, AtValidation, GenerationNode(r, a))
    case AtValidation => var t := ValidationNode(r); Go(m, AfterValidation(t.state), t)
    case AtSkip => Go(m, AtExecution, ReflectionSkipNode(r))
    case AtExecution => var t := ExecutionNode(r, a); Go(m, AfterExecution(t.state), t)
    case AtReflection =>
      if r.state.schema == None then Go(m, Crashed, r) else Go(m, AtValidation, ReflectionNode(r, a))
    case Ended => m
    case Crashed => m
  }

  function Rank(phase: Phase): nat {
    match phase
    case AtPlanner => 8
    case AtSchema => 7
    case AtMemory => 6
    case AtGeneration => 5
    case AtValidation => 4
    case AtSkip => 3
    case AtExecution => 2
    case AtReflection => 1
    case Ended => 0
    case Crashed => 0
  }

  // ---------------------------------------------------------------- the invariant

  /** How often the counted steps have run. */
  ghost predicate Tally(m: Machine, generations: nat, validations: nat, mostExecutions: nat, mostVisits: nat) {
    var trace := m.run.state.trace;
    && Count(trace, SqlGeneration) == generations && Count(trace, Validation) == validations
    && Count(trace, Execution) <= mostExecutions && m.visits <= mostVisits
  }

  ghost predicate Fresh(m: Machine, visits: nat) {
    Tally(m, 0, 0, 0, visits) && m.run.log == [] && m.run.state.rows == [] && m.run.state.retryCount == 0
  }

  ghost predicate Inv(m: Machine) {
    var s, n := m.run.state, m.run.state.retryCount;
    && Sound(m.run)
    && match m.phase
       case AtPlanner => Fresh(m, 0) && s.error == None && s.schema == None
       case AtSchema => Fresh(m, 1) && s.error == None && s.schema == None
       case AtMemory => Fresh(m, 2) && (s.error == None <==> s.schema.Some?)
       case AtGeneration => Fresh(m, 3) && (s.error == None <==> s.schema.Some?)
       case AtValidation => Tally(m, 1, n, n, 4 + 4 * n) && s.rows == [] && s.schema.Some?
       case AtSkip => Tally(m, 1, n + 1, n, 5 + 4 * n) && s.rows == [] && s.schema.Some? && Cleared(m.run)
       case AtExecution => Tally(m, 1, n + 1, n, 6 + 4 * n) && s.rows == [] && s.schema.Some? && Cleared(m.run)
       case AtReflection =>
         && Tally(m, 1, n + 1, n + 1, 7 + 4 * n) && s.rows == [] && s.schema.Some? && Truthy(s.error)
         && n < s.policy.maxRetries
       case Ended =>
         && Tally(m, 1, n + 1, n + 1, 7 + 4 * n) && s.schema.Some? && Honest(m.run)
         && (s.error != None ==> n == s.policy.maxRetries)
       case Crashed => Fresh(m, 4) && s.schema == None && s.error != None
  }

  /** The schema has been asked for. */
  predicate Later(phase: Phase) {
    phase != AtPlanner && phase != AtSchema
  }

  /** What a step leaves alone. */
  ghost predicate Steady(m: Machine, t: Machine) {
    && t.run.state.policy == m.run.state.policy
    && (Later(m.phase) ==> t.run.state.schema == m.run.state.schema)
  }

  /** One entry more in the trace changes the count of its step only. */
  ghost predicate Progress(m: Machine, t: Machine) {
    && Steady(m, t)
    && ((t.run.state.retryCount == m.run.state.retryCount && Rank(t.phase) < Rank(m.phase))
        || t.run.state.retryCount == m.run.state.retryCount + 1)
  }

  lemma PlannerStep(m: Machine, a: Answer)
    requires Inv(m) && m.phase == AtPlanner
    ensures Inv(Step(m, a)) && Progress(m, Step(m, a))
  {
    hide Sound;
    PlannerKeeps(m.run);
    CountsSnoc(m.run.state.trace, TraceEntry(Planner, Success));
    hide Count;
  }

  lemma SchemaStep(m: Machine, a: Answer)
    requires Inv(m) && m.phase == AtSchema
    ensures Inv(Step(m, a)) && Progress(m, Step(m, a))
  {
    hide Sound, RecoveryHint;
    SchemaKeeps(m.run, a);
    CountsSnoc(m.run.state.trace, TraceEntry(SchemaRetrieval, if a.schema.Loaded? then Success else Error));
    hide Count;
  }

  lemma MemoryStep(m: Machine, a: Answer)
    requires Inv(m) && m.phase == AtMemory
    ensures Inv(Step(m, a)) && Progress(m, Step(m, a))
  {
    hide Sound, Telemetry.Record;
    MemoryKeeps(m.run, a);
    CountsSnoc(m.run.state.trace, TraceEntry(MemoryRetrieval, Success));
    hide Count;
  }

  lemma GenerationStep(m: Machine, a: Answer)
    requires Inv(m) && m.phase == AtGeneration
    ensures Inv(Step(m, a)) && Progress(m, Step(m, a))
  {
    hide Sound, GenerationNode, NoSql;
    GenerationKeeps(m.run, a);
    CountsSnoc(m.run.state.trace, TraceEntry(SqlGeneration, if NoSql(Strip(a.text)) then Error else Success));
    hide Count, Strip;
  }

  lemma RouteWithError(s: State)
    requires Truthy(s.error)
    ensures RouteAfterValidation(s) == (if s.retryCount < s.policy.maxRetries then ToReflection else ToEnd)
    ensures RouteAfterExecution(s) == (if s.retryCount < s.policy.maxRetries then ToReflection else ToEnd)
  {
    hide RetryDelay;
  }

  lemma ValidationStep(m: Machine, a: Answer)
    requires Inv(m) && m.phase == AtValidation
    ensures Inv(Step(m, a)) && Progress(m, Step(m, a))
  {
    hide Sound, ValidationNode, Accepts;
    var status := ValidationKeeps(m.run);
    var t := ValidationNode(m.run);
    SoundBudget(t);
    CountsSnoc(m.run.state.trace, TraceEntry(Validation, status));
    assert t.state.trace[|t.state.trace| - 1] == TraceEntry(Validation, status);
    assert t.state.error == None || Truthy(t.state.error);
    if Truthy(t.state.error) { RouteWithError(t.state); }
    hide Count, RouteAfterExecution, RetryVerdict;
  }

  lemma SoundBudget(r: Run)
    requires Sound(r)
    ensures r.state.retryCount <= r.state.policy.maxRetries
  {
  }

  lemma SkipStep(m: Machine, a: Answer)
    requires Inv(m) && m.phase == AtSkip
    ensures Inv(Step(m, a)) && Progress(m, Step(m, a))
  {
    hide Sound, ReflectionSkipNode, Cleared;
    SkipKeeps(m.run);
    CountsSnoc(m.run.state.trace, TraceEntry(Reflection, Skipped));
    hide Count;
  }

  lemma ExecutionStep(m: Machine, a: Answer)
    requires Inv(m) && m.phase == AtExecution
    ensures Inv(Step(m, a)) && Progress(m, Step(m, a))
  {
    hide Sound, ExecutionNode, Cleared, Delivered;
    ExecutionKeeps(m.run, a);
    var t := ExecutionNode(m.run, a);
    SoundBudget(t);
    CountsSnoc(m.run.state.trace, TraceEntry(Execution, if a.outcome.Rows? then Success else Error));
    DeliveredLast(t);
    if Truthy(t.state.error) { RouteWithError(t.state); }
    hide Count, RouteAfterValidation, RetryVerdict;
  }

  lemma ReflectionStep(m: Machine, a: Answer)
    requires Inv(m) && m.phase == AtReflection
    ensures Inv(Step(m, a)) && Progress(m, Step(m, a))
  {
    hide Sound, ReflectionNode, NoSql;
    ReflectionKeeps(m.run, a);
    CountsSnoc(m.run.state.trace, TraceEntry(Reflection, if NoSql(Strip(a.text)) then Error else Retried));
    hide Count, Strip;
  }

  /** Whatever the environment answers, a node keeps the invariant and comes nearer to the end. */
  lemma StepKeeps(m: Machine, a: Answer)
    requires Inv(m) && !Final(m)
    ensures Inv(Step(m, a)) && Progress(m, Step(m, a))
  {
    hide Inv, Step, Progress;
    match m.phase {
      case AtPlanner => PlannerStep(m, a);
      case AtSchema => SchemaStep(m, a);
      case AtMemory => MemoryStep(m, a);
      case AtGeneration => GenerationStep(m, a);
      case AtValidation => ValidationStep(m, a);
      case AtSkip => SkipStep(m, a);
      case AtExecution => ExecutionStep(m, a);
      case AtReflection => ReflectionStep(m, a);
    }
  }

  // ---------------------------------------------------------------- whole runs

  function Start(policy: RetryPolicy, floor: real, correlationId: string): (m: Machine)
    ensures Inv(m)
  {
    Machine(AtPlanner, InitialRun(policy, floor, correlationId), 0)
  }

  ghost function Budget(m: Machine): nat
    requires Inv(m)
  {
    m.run.state.policy.maxRetries - m.run.state.retryCount
  }

  /** `workflow.invoke`: the n-th node visited gets the n-th answer. That the recursion is well founded - on the retries
      left, then on the node - is the termination proof. */
  function RunGraph(m: Machine, answers: nat -> Answer): Machine
    requires Inv(m)
    decreases Budget(m), Rank(m.phase)
  {
    if Final(m) then m
    else
      StepKeeps(m, answers(m.visits));
      RunGraph(Step(m, answers(m.visits)), answers)
  }

  /** Every run ends, in a state that satisfies the invariant, with its policy, and with the schema it had once one has
      been asked for. */
  lemma {:induction false} RunEnds(m: Machine, answers: nat -> Answer)
    requires Inv(m)
    ensures var e := RunGraph(m, answers);
      Inv(e) && Final(e) && Steady(m, e)
    decreases Budget(m), Rank(m.phase)
  {
    hide Inv, Step;
    if !Final(m) {
      StepKeeps(m, answers(m.visits));
      LaterStays(m, answers(m.visits));
      RunEnds(Step(m, answers(m.visits)), answers);
    }
  }

  lemma LaterStays(m: Machine, a: Answer)
    ensures Later(m.phase) ==> Later(Step(m, a).phase)
  {
  }

  /** The machine after `n` nodes. */
  ghost function After(m: Machine, answers: nat -> Answer, n: nat): Machine {
    if n == 0 then m
    else var before := After(m, answers, n - 1); Step(before, answers(before.visits))
  }

  lemma {:induction false} ReachableInv(m: Machine, answers: nat -> Answer, n: nat)
    requires Inv(m)
    ensures Inv(After(m, answers, n))
  {
    hide Inv, Step;
    if n > 0 {
      ReachableInv(m, answers, n - 1);
      var before := After(m, answers, n - 1);
      if Final(before) {
        FinalStays(before, answers(before.visits));
      } else {
        StepKeeps(before, answers(before.visits));
      }
    }
  }

  lemma FinalStays(m: Machine, a: Answer)
    requires Final(m)
    ensures Step(m, a) == m
  {
  }

  /** In every reachable state the budget holds, and the early guard of SQL generation does not fire. */
  lemma {:induction false} GuardNeverFires(
    policy: RetryPolicy, floor: real, correlationId: string, answers: nat -> Answer, n: nat)
    ensures var s := After(Start(policy, floor, correlationId), answers, n).run.state;
      s.retryCount <= s.policy.maxRetries && !GuardFires(s)
  {
    ReachableInv(Start(policy, floor, correlationId), answers, n);
    hide After;
  }

  /** For every behaviour of model, validator and database: the run ends; it crashes exactly when no schema could be
      loaded. Otherwise SQL is generated once; reflections are the retries spent, validations one more, executions at
      most one more; at most 4 nodes are entered per retry and 7 besides; an error is left only by a spent budget, and
      no error exactly by a query that delivered, whose rows these are. */
  lemma GraphRun(policy: RetryPolicy, floor: real, correlationId: string, answers: nat -> Answer)
    ensures var e := RunGraph(Start(policy, floor, correlationId), answers);
      var s, n := e.run.state, e.run.state.retryCount;
      && Sound(e.run) && n <= policy.maxRetries
      && (e.phase == Crashed <==> answers(1).schema.Unavailable?)
      && (e.phase == Ended ==>
            && Count(s.trace, SqlGeneration) == 1 && Count(s.trace, Reflection) == n
            && Count(s.trace, Validation) == n + 1
            && Count(s.trace, Execution) == Queries(e.run.log) && Queries(e.run.log) <= n + 1
            && e.visits <= 4 * n + 7 && Honest(e.run)
            && (s.error != None ==> n == policy.maxRetries))
  {
    hide RunGraph, Sound, Honest, Guarded, Vetted, Metered, Count, Queries;
    var m := SchemaRead(policy, floor, correlationId, answers);
    RunEnds(m, answers);
    SoundBudget(RunGraph(m, answers).run);
    SoundCounts(RunGraph(m, answers).run);
  }

  /** The first two nodes: the run goes on from a state that has a schema exactly if one could be loaded. */
  lemma SchemaRead(policy: RetryPolicy, floor: real, correlationId: string, answers: nat -> Answer) returns (m: Machine)
    ensures Inv(m) && m.phase == AtMemory && m.run.state.policy == policy
    ensures m.run.state.schema.Some? <==> answers(1).schema.Loaded?
    ensures RunGraph(Start(policy, floor, correlationId), answers) == RunGraph(m, answers)
  {
    hide Inv, Step, RunGraph, Progress;
    var m0 := Start(policy, floor, correlationId);
    PlannerStep(m0, answers(0));
    Planned(m0, answers(0));
    var m1 := Step(m0, answers(0));
    SchemaStep(m1, answers(1));
    SchemaAsked(m1, answers(1));
    m := Step(m1, answers(1));
    RunFrom(m0, answers);
    RunFrom(m1, answers);
  }

  lemma Planned(m: Machine, a: Answer)
    requires m.phase == AtPlanner
    ensures Step(m, a).phase == AtSchema && Step(m, a).visits == m.visits + 1
    ensures Step(m, a).run.state.policy == m.run.state.policy && Step(m, a).run.state.schema == m.run.state.schema
  {
  }

  lemma SchemaAsked(m: Machine, a: Answer)
    requires m.phase == AtSchema && m.run.state.schema == None
    ensures Step(m, a).phase == AtMemory && Step(m, a).run.state.policy == m.run.state.policy
    ensures Step(m, a).run.state.schema.Some? <==> a.schema.Loaded?
  {
    hide RecoveryHint;
  }

  lemma {:induction false} RunFrom(m: Machine, answers: nat -> Answer)
    requires Inv(m) && !Final(m)
    ensures Inv(Step(m, answers(m.visits)))
    ensures RunGraph(m, answers) == RunGraph(Step(m, answers(m.visits)), answers)
  {
    StepKeeps(m, answers(m.visits));
    hide Inv, Step;
  }

  lemma SoundCounts(r: Run)
    requires Sound(r)
    ensures Count(r.state.trace, Reflection) == r.state.retryCount && Count(r.state.trace, Execution) == Queries(r.log)
  {
  }

  /** Whenever a run comes to a reflection, the state holds the SQL that failed and why, for the repair prompt. */
  lemma {:induction false} ReflectionSeesFailure(
    policy: RetryPolicy, floor: real, correlationId: string, answers: nat -> Answer, n: nat)
    ensures var m := After(Start(policy, floor, correlationId), answers, n);
      m.phase == AtReflection ==> RemembersFailure(m.run.state)
  {
    hide Inv, Step, RemembersFailure, Start;
    var start := Start(policy, floor, correlationId);
    if n == 0 {
      assert After(start, answers, 0).phase == AtPlanner by { StartsAtPlanner(policy, floor, correlationId); }
    } else {
      var before := After(start, answers, n - 1);
      ReachableInv(start, answers, n - 1);
      assert After(start, answers, n) == Step(before, answers(before.visits));
      hide After;
      if Step(before, answers(before.visits)).phase == AtReflection { Remembered(before, answers(before.visits)); }
    }
  }

  lemma StartsAtPlanner(policy: RetryPolicy, floor: real, correlationId: string)
    ensures Start(policy, floor, correlationId).phase == AtPlanner
  {
  }

  /** Only validation and execution lead to a reflection. */
  lemma Remembered(m: Machine, a: Answer)
    requires Inv(m) && Step(m, a).phase == AtReflection
    ensures RemembersFailure(Step(m, a).run.state)
  {
    hide RemembersFailure, PlannerNode, SchemaNode, MemoryNode, GenerationNode, ValidationNode, ReflectionNode;
    hide ReflectionSkipNode, ExecutionNode, GuardFires, RetryVerdict, Cleared, Tally, Fresh;
    match m.phase {
      case AtValidation => SoundTidy(m.run); FailedValidationRemembered(m.run);
      case AtExecution => FailedExecutionRemembered(m.run, a);
      case _ =>
    }
  }

  /** In this driver the SQL a reflection comes up with is the very next thing to be validated. */
  lemma ReflectionIsChecked(m: Machine, a: Answer, b: Answer)
    requires Inv(m) && m.phase == AtReflection && !NoSql(Strip(a.text))
    ensures var t := Step(Step(m, a), b);
      |t.run.log| == |m.run.log| + 1 && t.run.log[..|m.run.log|] == m.run.log
      && t.run.log[|m.run.log|].Checked? && t.run.log[|m.run.log|].sql == Strip(a.text)
  {
    hide Inv, NoSql, Strip, Measured, ReportOn, ValidationFailed, RouteAfterValidation;
    assert m.run.state.schema.Some? by { SchemaLoaded(m); }
    assert Strip(a.text) != "" by { NotEmpty(a.text); }
    StripTwice(a.text);
  }

  lemma SchemaLoaded(m: Machine)
    requires Inv(m) && m.phase == AtReflection
    ensures m.run.state.schema.Some?
  {
  }

  lemma NotEmpty(text: string)
    requires !NoSql(Strip(text))
    ensures Strip(text) != ""
  {
  }

  /** Whatever is ever sent to the database is acceptable: after fences are stripped it begins with SELECT or WITH, has
      no blocked word outside comments, balanced parentheses, semicolons only at its tail, names only tables of the
      schema, and refers to no column that its table, if known, does not have. */
  lemma QueriedIsAcceptable(r: Run, i: nat)
    requires Sound(r) && i < |r.log| && r.log[i].Queried?
    ensures Sql.Acceptable(Sql.FenceStrip(r.log[i].sql), SchemaText.ParseSchema(TextOf(r.state.schema)))
  {
    hide Sql.Acceptable, Sql.FenceStrip, SchemaText.ParseSchema, Metered, Tidy;
    assert r.log[i - 1].accepted && VettedSql(r.log[i - 1].sql, TextOf(r.state.schema));
  }
}
