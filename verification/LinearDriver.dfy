/** The hand-written driver (graph/workflow.py, _run_linear): after a reflection it goes back to SQL generation. */
module LinearDriver {
  import opened Wrappers
  import opened Text
  import opened Retry
  import opened Workflow
  import opened WorkflowNodes
  import Telemetry

  ghost predicate Tally(r: Run, generations: nat, validations: nat, mostExecutions: nat) {
    && Count(r.state.trace, SqlGeneration) == generations && Count(r.state.trace, Validation) == validations
    && Count(r.state.trace, Execution) <= mostExecutions
  }

  /** Every validation directly follows a successful generation: SQL that came out of a reflection is generated anew
      before anything looks at it. */
  ghost predicate Regenerated(trace: seq<TraceEntry>) {
    forall i :: 0 <= i < |trace| && trace[i].step == Validation ==>
      i > 0 && trace[i - 1] == TraceEntry(SqlGeneration, Success)
  }

  ghost predicate LastIs(r: Run, step: StepName) {
    r.state.trace != [] && r.state.trace[|r.state.trace| - 1].step == step
  }

  ghost predicate LastEntry(r: Run, e: TraceEntry) {
    r.state.trace != [] && r.state.trace[|r.state.trace| - 1] == e
  }

  /** Between the nodes of a run that has a schema and no rows yet. */
  ghost predicate Working(r: Run, policy: RetryPolicy) {
    && Sound(r) && r.state.rows == [] && r.state.schema.Some? && r.state.policy == policy
    && Regenerated(r.state.trace)
  }

  /** At the head of the loop. */
  ghost predicate AtHead(r: Run, policy: RetryPolicy) {
    Working(r, policy) && r.state.error == None && Tally(r, r.state.retryCount, r.state.retryCount, r.state.retryCount)
  }

  /** A node may be reflected on: it failed and the budget lasts. */
  ghost predicate ToRepair(r: Run, policy: RetryPolicy) {
    var n := r.state.retryCount;
    && Working(r, policy) && Truthy(r.state.error) && n < policy.maxRetries && Tally(r, n + 1, n + 1, n + 1)
  }

  /** How a run of this driver ends. */
  ghost predicate Finished(r: Run, policy: RetryPolicy) {
    var s, n := r.state, r.state.retryCount;
    && Sound(r) && Honest(r) && Regenerated(s.trace) && s.policy == policy
    && Count(s.trace, SqlGeneration) <= n + 1 && Count(s.trace, Validation) <= n + 1
    && Count(s.trace, Execution) <= n + 1
    && (s.error != None ==>
          n == policy.maxRetries || LastIs(r, SchemaRetrieval) || LastIs(r, SqlGeneration) || LastIs(r, Reflection))
  }

  lemma RegeneratedSnoc(trace: seq<TraceEntry>, e: TraceEntry)
    requires Regenerated(trace)
    requires e.step == Validation ==> trace != [] && trace[|trace| - 1] == TraceEntry(SqlGeneration, Success)
    ensures Regenerated(trace + [e])
  {
    var t := trace + [e];
    assert forall i :: 0 <= i < |trace| ==> t[i] == trace[i];
  }

  lemma Remembered(r: Run, policy: RetryPolicy, b: Answer)
    requires AtHead(r, policy)
    ensures AtHead(MemoryNode(r, b), policy)
  {
    hide Sound, Telemetry.Record, Regenerated;
    MemoryKeeps(r, b);
    CountsSnoc(r.state.trace, TraceEntry(MemoryRetrieval, Success));
    RegeneratedSnoc(r.state.trace, TraceEntry(MemoryRetrieval, Success));
    hide Count;
  }

  lemma InitialSound(policy: RetryPolicy, floor: real, correlationId: string)
    ensures Sound(InitialRun(policy, floor, correlationId))
    ensures Regenerated(InitialRun(policy, floor, correlationId).state.trace)
  {
  }

  lemma Generated(r: Run, policy: RetryPolicy, a: Answer)
    requires AtHead(r, policy)
    ensures var t, n := GenerationNode(r, a), r.state.retryCount;
      && t.state.retryCount == n && (t.state.error == None || Truthy(t.state.error))
      && (t.state.error != None ==> Finished(t, policy))
      && (t.state.error == None ==>
            Working(t, policy) && Tally(t, n + 1, n, n) && LastEntry(t, TraceEntry(SqlGeneration, Success)))
  {
    hide Sound, GenerationNode, NoSql, Strip, Regenerated;
    var e := TraceEntry(SqlGeneration, if NoSql(Strip(a.text)) then Error else Success);
    GenerationKeeps(r, a);
    CountsSnoc(r.state.trace, e);
    RegeneratedSnoc(r.state.trace, e);
    assert GenerationNode(r, a).state.trace[|r.state.trace|] == e;
    hide Count;
  }

  lemma Checked(r: Run, policy: RetryPolicy)
    requires Working(r, policy) && Tally(r, r.state.retryCount + 1, r.state.retryCount, r.state.retryCount)
    requires LastEntry(r, TraceEntry(SqlGeneration, Success))
    ensures var t, n := ValidationNode(r), r.state.retryCount;
      && t.state.retryCount == n && (t.state.error == None || Truthy(t.state.error))
      && (t.state.error == None ==> Working(t, policy) && Cleared(t) && Tally(t, n + 1, n + 1, n))
      && (t.state.error != None ==> if n < policy.maxRetries then ToRepair(t, policy) else Finished(t, policy))
  {
    hide Sound, ValidationNode, Accepts, Regenerated;
    var t := ValidationNode(r);
    var status := ValidationKeeps(r);
    SoundTidy(t);
    CountsSnoc(r.state.trace, TraceEntry(Validation, status));
    RegeneratedSnoc(r.state.trace, TraceEntry(Validation, status));
    assert t.state.trace[|r.state.trace|] == TraceEntry(Validation, status);
    hide Count;
  }

  lemma Passed(r: Run, policy: RetryPolicy)
    requires Working(r, policy) && Cleared(r)
    requires Tally(r, r.state.retryCount + 1, r.state.retryCount + 1, r.state.retryCount)
    ensures var t, n := ReflectionSkipNode(r), r.state.retryCount;
      Working(t, policy) && Cleared(t) && t.state.retryCount == n && Tally(t, n + 1, n + 1, n)
  {
    hide Sound, ReflectionSkipNode, Cleared, Regenerated;
    SkipKeeps(r);
    CountsSnoc(r.state.trace, TraceEntry(Reflection, Skipped));
    RegeneratedSnoc(r.state.trace, TraceEntry(Reflection, Skipped));
    hide Count;
  }

  lemma Executed(r: Run, policy: RetryPolicy, a: Answer)
    requires Working(r, policy) && Cleared(r)
    requires Tally(r, r.state.retryCount + 1, r.state.retryCount + 1, r.state.retryCount)
    ensures var t, n := ExecutionNode(r, a), r.state.retryCount;
      && t.state.retryCount == n && (t.state.error == None || Truthy(t.state.error))
      && (if t.state.error != None && n < policy.maxRetries then ToRepair(t, policy) else Finished(t, policy))
  {
    hide Sound, ExecutionNode, Cleared, Delivered, Regenerated;
    var t, e := ExecutionNode(r, a), TraceEntry(Execution, if a.outcome.Rows? then Success else Error);
    ExecutionKeeps(r, a);
    SoundTidy(t);
    CountsSnoc(r.state.trace, e);
    RegeneratedSnoc(r.state.trace, e);
    DeliveredLast(t);
    assert t.state.trace[|r.state.trace|] == e;
    hide Count;
  }

  lemma Repaired(r: Run, policy: RetryPolicy, a: Answer)
    requires ToRepair(r, policy)
    ensures var t, n := ReflectionNode(r, a), r.state.retryCount;
      && t.state.retryCount == n + 1 && (t.state.error == None || Truthy(t.state.error))
      && (if t.state.error == None then AtHead(t, policy) else Finished(t, policy))
  {
    hide Sound, ReflectionNode, NoSql, Strip, Regenerated;
    var e := TraceEntry(Reflection, if NoSql(Strip(a.text)) then Error else Retried);
    ReflectionKeeps(r, a);
    CountsSnoc(r.state.trace, e);
    RegeneratedSnoc(r.state.trace, e);
    assert ReflectionNode(r, a).state.trace[|r.state.trace|] == e;
    hide Count;
  }

  lemma RouteWithError(s: State)
    ensures Truthy(s.error) ==> (RetryVerdict(s, TextOf(s.error)).shouldRetry <==> s.retryCount < s.policy.maxRetries)
  {
    hide RetryDelay;
  }

  // ---------------------------------------------------------------- the driver as a table of edges

  datatype Point =
    | Planning | LoadingSchema | Remembering | Generating | Validating | Skipping | Executing | Reflecting | Done

  /** Where the driver stands; `nodes` counts the nodes entered, which is also the next answer to use. */
  datatype Cursor = Cursor(point: Point, run: Run, nodes: nat)

  function Start(policy: RetryPolicy, floor: real, correlationId: string): Cursor {
    Cursor(Planning, InitialRun(policy, floor, correlationId), 0)
  }

  /** The edge out of a node: every node but validation and execution ends the run if it leaves an error, and those
      two reflect on one while the budget lasts. */
  function Edge(point: Point, s: State): Point {
    match point
    case Planning => if Truthy(s.error) then Done else LoadingSchema
    case LoadingSchema => if Truthy(s.error) then Done else Remembering
    case Remembering => if Truthy(s.error) then Done else Generating
    case Generating => if Truthy(s.error) then Done else Validating
    case Validating =>
      if !Truthy(s.error) then Skipping
      else if RetryVerdict(s, TextOf(s.error)).shouldRetry then Reflecting else Done
    case Skipping => Executing
    case Executing =>
      if Truthy(s.error) && RetryVerdict(s, TextOf(s.error)).shouldRetry then Reflecting else Done
    case Reflecting => if Truthy(s.error) then Done else Generating
    case Done => Done
  }

  function Node(point: Point, r: Run, a: Answer): Run {
    match point
    case Planning => PlannerNode(r)
    case LoadingSchema => SchemaNode(r, a)
    case Remembering => MemoryNode(r, a)
    case Generating => GenerationNode(r, a)
    case Validating => ValidationNode(r)
    case Skipping => ReflectionSkipNode(r)
    case Executing => ExecutionNode(r, a)
    case Reflecting => ReflectionNode(r, a)
    case Done => r
  }

  function Follow(c: Cursor, a: Answer): Cursor {
    if c.point == Done then c
    else var r := Node(c.point, c.run, a); Cursor(Edge(c.point, r.state), r, c.nodes + 1)
  }

  function After(c: Cursor, answers: nat -> Answer, n: nat): Cursor {
    if n == 0 then c else Follow(After(c, answers, n - 1), answers(n - 1))
  }

  // ---------------------------------------------------------------- the loop

  /** `_run_linear` without its callbacks. For every behaviour of model, validator and database the loop ends, having
      followed the edges; each round but the last spent one retry; the run is sound and honest, and generates,
      validates and executes at most one time more than it retried. */
  method RunLinear(policy: RetryPolicy, floor: real, correlationId: string, answers: nat -> Answer)
    returns (r: Run, nodes: nat)
    ensures After(Start(policy, floor, correlationId), answers, nodes) == Cursor(Done, r, nodes)
    ensures Finished(r, policy) && nodes <= 5 * r.state.retryCount + 7
  {
    r, nodes := InitialRun(policy, floor, correlationId), 0;
    ghost var start := Start(policy, floor, correlationId);
    assert After(start, answers, 0) == Cursor(Planning, r, 0);
    hide After, Node, Edge, Follow, Finished, RetryVerdict, InitialRun;
    hide PlannerNode, SchemaNode, MemoryNode, GenerationNode, ValidationNode, ReflectionNode, ReflectionSkipNode;
    hide ExecutionNode;
    AfterPlanning(start, answers, 0, r);
    r, nodes := PlannerNode(r), 1;
    if Truthy(r.state.error) { AtTheEnd(policy, floor, correlationId, answers, nodes); return; }
    AfterSchema(start, answers, nodes, r);
    r, nodes := SchemaNode(r, answers(1)), 2;
    if Truthy(r.state.error) { AtTheEnd(policy, floor, correlationId, answers, nodes); return; }
    AfterMemory(start, answers, nodes, r);
    r, nodes := MemoryNode(r, answers(2)), 3;
    if Truthy(r.state.error) { AtTheEnd(policy, floor, correlationId, answers, nodes); return; }
    while true
      invariant After(start, answers, nodes) == Cursor(Generating, r, nodes)
      decreases policy.maxRetries - r.state.retryCount
    {
      AfterGenerating(start, answers, nodes, r);
      CountAfter(r, answers(nodes));
      r, nodes := GenerationNode(r, answers(nodes)), nodes + 1;
      if Truthy(r.state.error) { break; }

      AfterValidating(start, answers, nodes, r);
      CountAfter(r, answers(nodes));
      r, nodes := ValidationNode(r), nodes + 1;
      if Truthy(r.state.error) {
        if !RetryVerdict(r.state, TextOf(r.state.error)).shouldRetry { break; }
        RetryLeft(policy, floor, correlationId, answers, nodes);
        AfterReflecting(start, answers, nodes, r);
        CountAfter(r, answers(nodes));
        r, nodes := ReflectionNode(r, answers(nodes)), nodes + 1;
        if Truthy(r.state.error) { break; }
        continue;
      }

      AfterSkipping(start, answers, nodes, r);
      CountAfter(r, answers(nodes));
      r, nodes := ReflectionSkipNode(r), nodes + 1;
      AfterExecuting(start, answers, nodes, r);
      CountAfter(r, answers(nodes));
      r, nodes := ExecutionNode(r, answers(nodes)), nodes + 1;
      if !(Truthy(r.state.error) && RetryVerdict(r.state, TextOf(r.state.error)).shouldRetry) { break; }
      RetryLeft(policy, floor, correlationId, answers, nodes);
      AfterReflecting(start, answers, nodes, r);
      CountAfter(r, answers(nodes));
      r, nodes := ReflectionNode(r, answers(nodes)), nodes + 1;
      if Truthy(r.state.error) { break; }
    }
    AtTheEnd(policy, floor, correlationId, answers, nodes);
  }

  lemma {:induction false} AtTheEnd(
    policy: RetryPolicy, floor: real, correlationId: string, answers: nat -> Answer, n: nat)
    requires After(Start(policy, floor, correlationId), answers, n).point == Done
    ensures var c := After(Start(policy, floor, correlationId), answers, n);
      Finished(c.run, policy) && c.nodes <= 5 * c.run.state.retryCount + 7
  {
    hide Finished, After;
    LinearReachable(policy, floor, correlationId, answers, n);
  }

  /** A reflection has a retry to spend. */
  lemma {:induction false} RetryLeft(
    policy: RetryPolicy, floor: real, correlationId: string, answers: nat -> Answer, n: nat)
    requires After(Start(policy, floor, correlationId), answers, n).point == Reflecting
    ensures After(Start(policy, floor, correlationId), answers, n).run.state.retryCount < policy.maxRetries
  {
    hide After, Working, Tally;
    LinearReachable(policy, floor, correlationId, answers, n);
  }

  // ---------------------------------------------------------------- every reachable state

  /** Before there is a schema. */
  ghost predicate Blank(r: Run, policy: RetryPolicy) {
    && Sound(r) && Regenerated(r.state.trace) && Tally(r, 0, 0, 0) && r.log == [] && r.state.error == None
    && r.state.rows == [] && r.state.policy == policy && r.state.retryCount == 0
  }

  /** Between validation and execution. */
  ghost predicate ToRun(r: Run, policy: RetryPolicy) {
    var n := r.state.retryCount;
    Working(r, policy) && Cleared(r) && Tally(r, n + 1, n + 1, n)
  }

  ghost predicate CursorInv(c: Cursor, policy: RetryPolicy) {
    var r, n := c.run, c.run.state.retryCount;
    match c.point
    case Planning => Blank(r, policy) && c.nodes == 0
    case LoadingSchema => Blank(r, policy) && c.nodes == 1
    case Remembering => AtHead(r, policy) && n == 0 && c.nodes == 2
    case Generating => AtHead(r, policy) && c.nodes <= 5 * n + 3
    case Validating =>
      && Working(r, policy) && Tally(r, n + 1, n, n) && LastEntry(r, TraceEntry(SqlGeneration, Success))
      && c.nodes <= 5 * n + 4
    case Skipping => ToRun(r, policy) && c.nodes <= 5 * n + 5
    case Executing => ToRun(r, policy) && c.nodes <= 5 * n + 6
    case Reflecting => ToRepair(r, policy) && c.nodes <= 5 * n + 7
    case Done => Finished(r, policy) && c.nodes <= 5 * n + 7
  }

  lemma PlanningKeeps(c: Cursor, policy: RetryPolicy, a: Answer)
    requires CursorInv(c, policy) && c.point == Planning
    ensures CursorInv(Follow(c, a), policy)
  {
    hide Sound, Regenerated, RetryVerdict;
    PlannerKeeps(c.run);
    CountsSnoc(c.run.state.trace, TraceEntry(Planner, Success));
    RegeneratedSnoc(c.run.state.trace, TraceEntry(Planner, Success));
    hide Count;
  }

  lemma LoadingKeeps(c: Cursor, policy: RetryPolicy, a: Answer)
    requires CursorInv(c, policy) && c.point == LoadingSchema
    ensures CursorInv(Follow(c, a), policy)
  {
    hide Sound, Regenerated, RetryVerdict, RecoveryHint;
    var r, e := c.run, TraceEntry(SchemaRetrieval, if a.schema.Loaded? then Success else Error);
    SchemaKeeps(r, a);
    CountsSnoc(r.state.trace, e);
    RegeneratedSnoc(r.state.trace, e);
    assert SchemaNode(r, a).state.trace[|r.state.trace|] == e;
    hide Count;
  }

  lemma RememberingKeeps(c: Cursor, policy: RetryPolicy, a: Answer)
    requires CursorInv(c, policy) && c.point == Remembering
    ensures CursorInv(Follow(c, a), policy)
  {
    hide Sound, Telemetry.Record, Regenerated, RetryVerdict, Working, Tally;
    Remembered(c.run, policy, a);
  }

  lemma GeneratingKeeps(c: Cursor, policy: RetryPolicy, a: Answer)
    requires CursorInv(c, policy) && c.point == Generating
    ensures CursorInv(Follow(c, a), policy)
  {
    hide Finished, Working, AtHead, ToRepair, Cleared, Tally, LastEntry, RetryVerdict;
    hide GenerationNode;
    Generated(c.run, policy, a);
  }

  lemma ValidatingKeeps(c: Cursor, policy: RetryPolicy, a: Answer)
    requires CursorInv(c, policy) && c.point == Validating
    ensures CursorInv(Follow(c, a), policy)
  {
    hide Finished, Working, AtHead, ToRepair, Cleared, Tally, LastEntry, RetryVerdict;
    hide ValidationNode;
    Checked(c.run, policy);
    var t := ValidationNode(c.run);
    RouteWithError(t.state);
    RepairBudget(t, policy);
  }

  lemma SkippingKeeps(c: Cursor, policy: RetryPolicy, a: Answer)
    requires CursorInv(c, policy) && c.point == Skipping
    ensures CursorInv(Follow(c, a), policy)
  {
    hide Finished, Working, AtHead, ToRepair, Cleared, Tally, LastEntry, RetryVerdict;
    hide ReflectionSkipNode;
    Passed(c.run, policy);
  }

  lemma ExecutingKeeps(c: Cursor, policy: RetryPolicy, a: Answer)
    requires CursorInv(c, policy) && c.point == Executing
    ensures CursorInv(Follow(c, a), policy)
  {
    hide Finished, Working, AtHead, ToRepair, Cleared, Tally, LastEntry, RetryVerdict;
    hide ExecutionNode;
    Executed(c.run, policy, a);
    var t := ExecutionNode(c.run, a);
    RouteWithError(t.state);
    RepairBudget(t, policy);
  }

  lemma ReflectingKeeps(c: Cursor, policy: RetryPolicy, a: Answer)
    requires CursorInv(c, policy) && c.point == Reflecting
    ensures CursorInv(Follow(c, a), policy)
  {
    hide Finished, Working, AtHead, ToRepair, Cleared, Tally, LastEntry, RetryVerdict;
    hide ReflectionNode;
    Repaired(c.run, policy, a);
  }

  /** Whatever the environment answers, following an edge keeps the invariant. */
  lemma FollowKeeps(c: Cursor, policy: RetryPolicy, a: Answer)
    requires CursorInv(c, policy)
    ensures CursorInv(Follow(c, a), policy)
  {
    hide CursorInv, Node, Edge;
    match c.point {
      case Planning => PlanningKeeps(c, policy, a);
      case LoadingSchema => LoadingKeeps(c, policy, a);
      case Remembering => RememberingKeeps(c, policy, a);
      case Generating => GeneratingKeeps(c, policy, a);
      case Validating => ValidatingKeeps(c, policy, a);
      case Skipping => SkippingKeeps(c, policy, a);
      case Executing => ExecutingKeeps(c, policy, a);
      case Reflecting => ReflectingKeeps(c, policy, a);
      case Done =>
    }
  }

  /** In every state the loop driver can reach the run is sound, the counts are in step with the retries spent, and
      once it is done the run is finished. */
  lemma {:induction false} LinearReachable(
    policy: RetryPolicy, floor: real, correlationId: string, answers: nat -> Answer, n: nat)
    ensures CursorInv(After(Start(policy, floor, correlationId), answers, n), policy)
  {
    hide Follow, Finished, Working, AtHead, ToRepair, Cleared, LastEntry, Sound, Regenerated;
    if n == 0 {
      InitialSound(policy, floor, correlationId);
    } else {
      LinearReachable(policy, floor, correlationId, answers, n - 1);
      FollowKeeps(After(Start(policy, floor, correlationId), answers, n - 1), policy, answers(n - 1));
      hide CursorInv;
    }
  }

  /** Only a reflection changes the retry count, and by one. */
  lemma CountAfter(r: Run, a: Answer)
    ensures GenerationNode(r, a).state.retryCount == r.state.retryCount
    ensures ValidationNode(r).state.retryCount == r.state.retryCount
    ensures ReflectionSkipNode(r).state.retryCount == r.state.retryCount
    ensures ExecutionNode(r, a).state.retryCount == r.state.retryCount
    ensures ReflectionNode(r, a).state.retryCount == r.state.retryCount + 1
  {
    hide Telemetry.Record, Strip, StartsWith, ReportOn, RetryVerdict, PolicyVerdict, RecoveryHint, Reflected, Join;
  }

  lemma AfterPlanning(c: Cursor, answers: nat -> Answer, n: nat, r: Run)
    requires After(c, answers, n) == Cursor(Planning, r, n)
    ensures var t := PlannerNode(r);
      After(c, answers, n + 1) == Cursor(if Truthy(t.state.error) then Done else LoadingSchema, t, n + 1)
  {
    hide PlannerNode, RetryVerdict;
  }

  lemma AfterSchema(c: Cursor, answers: nat -> Answer, n: nat, r: Run)
    requires After(c, answers, n) == Cursor(LoadingSchema, r, n)
    ensures var t := SchemaNode(r, answers(n));
      After(c, answers, n + 1) == Cursor(if Truthy(t.state.error) then Done else Remembering, t, n + 1)
  {
    hide SchemaNode, RetryVerdict;
  }

  lemma AfterMemory(c: Cursor, answers: nat -> Answer, n: nat, r: Run)
    requires After(c, answers, n) == Cursor(Remembering, r, n)
    ensures var t := MemoryNode(r, answers(n));
      After(c, answers, n + 1) == Cursor(if Truthy(t.state.error) then Done else Generating, t, n + 1)
  {
    hide MemoryNode, RetryVerdict;
  }

  lemma AfterGenerating(c: Cursor, answers: nat -> Answer, n: nat, r: Run)
    requires After(c, answers, n) == Cursor(Generating, r, n)
    ensures var t := GenerationNode(r, answers(n));
      After(c, answers, n + 1) == Cursor(if Truthy(t.state.error) then Done else Validating, t, n + 1)
  {
    hide GenerationNode, RetryVerdict;
  }

  lemma AfterSkipping(c: Cursor, answers: nat -> Answer, n: nat, r: Run)
    requires After(c, answers, n) == Cursor(Skipping, r, n)
    ensures var t := ReflectionSkipNode(r);
      After(c, answers, n + 1) == Cursor(Executing, t, n + 1)
  {
    hide ReflectionSkipNode, RetryVerdict;
  }

  lemma AfterReflecting(c: Cursor, answers: nat -> Answer, n: nat, r: Run)
    requires After(c, answers, n) == Cursor(Reflecting, r, n)
    ensures var t := ReflectionNode(r, answers(n));
      After(c, answers, n + 1) == Cursor(if Truthy(t.state.error) then Done else Generating, t, n + 1)
  {
    hide ReflectionNode, RetryVerdict;
  }

  lemma AfterValidating(c: Cursor, answers: nat -> Answer, n: nat, r: Run)
    requires After(c, answers, n) == Cursor(Validating, r, n)
    ensures var t := ValidationNode(r);
      After(c, answers, n + 1)
        == Cursor(if !Truthy(t.state.error) then Skipping
                  else if RetryVerdict(t.state, TextOf(t.state.error)).shouldRetry then Reflecting else Done, t, n + 1)
  {
    hide ValidationNode, RetryVerdict;
  }

  lemma AfterExecuting(c: Cursor, answers: nat -> Answer, n: nat, r: Run)
    requires After(c, answers, n) == Cursor(Executing, r, n)
    ensures var t := ExecutionNode(r, answers(n));
      After(c, answers, n + 1)
        == Cursor(if Truthy(t.state.error) && RetryVerdict(t.state, TextOf(t.state.error)).shouldRetry then Reflecting
                  else Done, t, n + 1)
  {
    hide ExecutionNode, RetryVerdict;
  }

  lemma RepairBudget(r: Run, policy: RetryPolicy)
    ensures ToRepair(r, policy) || Finished(r, policy) || Working(r, policy) ==> r.state.policy == policy
    ensures ToRepair(r, policy) ==> r.state.retryCount < policy.maxRetries
  {
  }

  // ---------------------------------------------------------------- what a reflection is given

  /** Only validation and execution lead to a reflection, and both leave what it needs. */
  lemma FailureRemembered(c: Cursor, policy: RetryPolicy, a: Answer)
    requires CursorInv(c, policy) && c.point != Done && Follow(c, a).point == Reflecting
    ensures RemembersFailure(Follow(c, a).run.state)
  {
    hide RemembersFailure, PlannerNode, SchemaNode, MemoryNode, GenerationNode, ValidationNode, ReflectionNode;
    hide ReflectionSkipNode, ExecutionNode, RetryVerdict, Cleared, Tally, Finished, Blank, AtHead, LastEntry;
    match c.point {
      case Validating => SoundTidy(c.run); FailedValidationRemembered(c.run);
      case Executing => FailedExecutionRemembered(c.run, a);
      case _ =>
    }
  }

  /** Whenever the loop comes to a reflection, the state holds the SQL that failed and why, for the repair prompt. */
  lemma {:induction false} ReflectionSeesFailure(
    policy: RetryPolicy, floor: real, correlationId: string, answers: nat -> Answer, n: nat)
    ensures var c := After(Start(policy, floor, correlationId), answers, n);
      c.point == Reflecting ==> RemembersFailure(c.run.state)
  {
    hide CursorInv, Node, RemembersFailure;
    if n > 0 {
      var before := After(Start(policy, floor, correlationId), answers, n - 1);
      LinearReachable(policy, floor, correlationId, answers, n - 1);
      assert After(Start(policy, floor, correlationId), answers, n) == Follow(before, answers(n - 1));
      if before.point != Done && Follow(before, answers(n - 1)).point == Reflecting {
        FailureRemembered(before, policy, answers(n - 1));
      }
    }
  }
}
