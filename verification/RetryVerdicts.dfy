/** A failing node records three verdicts - the stage policy's action, the recovery hint, the retry decision - and the
    router decides once more. When do the four agree? */
module RetryVerdicts {
  import opened Wrappers
  import opened Text
  import opened Retry
  import opened Workflow
  import opened WorkflowNodes
  import Telemetry
  import Graph = GraphDriver
  import Linear = LinearDriver

  predicate PolicyRetries(s: State) { s.action == Some(RetryStage) }
  predicate RecoveryRetries(s: State) { s.recovery == Some(ReflectionRetry) }
  predicate DecisionRetries(s: State) { s.decision.Some? && s.decision.value.shouldRetry }

  /** All four say retry, or all four say no; and a no escalates and ends the run. */
  predicate Agree(s: State, route: Route) {
    var retry := route == ToReflection;
    && PolicyRetries(s) == retry && RecoveryRetries(s) == retry && DecisionRetries(s) == retry
    && (!retry ==> s.action == Some(Escalate) && route == ToEnd)
  }

  /** After a failed validation the verdicts always agree: retry exactly while the budget lasts. */
  lemma ValidationVerdicts(r: Run)
    requires !Accepts(r.state)
    ensures var t := ValidationNode(r).state;
      Agree(t, RouteAfterValidation(t)) && (PolicyRetries(t) <==> r.state.retryCount < r.state.policy.maxRetries)
  {
    hide ReportOn, Join, ErrorTexts, Strip, RetryDelay;
  }

  /** After a failed execution the policy and the router agree; the other two join them exactly when the exception
      has a text or the budget is spent. A text-less exception with budget left is retried while the recorded hint
      and decision say there is nothing to retry. */
  lemma ExecutionVerdicts(r: Run, a: Answer)
    requires r.state.error == None && OutcomeOf(r.state, a).Raised?
    ensures var t := ExecutionNode(r, a).state;
      && (PolicyRetries(t) <==> RouteAfterExecution(t) == ToReflection)
      && (PolicyRetries(t) <==> r.state.retryCount < r.state.policy.maxRetries)
      && (Agree(t, RouteAfterExecution(t)) <==>
            OutcomeOf(r.state, a).message != "" || r.state.retryCount >= r.state.policy.maxRetries)
  {
    hide Telemetry.Record, RetryDelay;
    assert |"SQL execution failed: "| > 0;
  }

  /** After a failed reflection the policy still counts by the old retry count, the other two by the new one: they
      part exactly when the reflection spent the last retry. */
  lemma ReflectionVerdicts(r: Run, a: Answer)
    requires NoSql(Strip(a.text))
    ensures var t := ReflectionNode(r, a).state;
      && (RecoveryRetries(t) <==> DecisionRetries(t))
      && ((PolicyRetries(t) <==> DecisionRetries(t)) <==> r.state.retryCount + 1 != r.state.policy.maxRetries)
  {
    hide Telemetry.Record, RetryDelay, Strip, ErrorConfidence;
  }

  /** The same at every point of every run of the compiled graph: after a failed validation the verdicts agree, after a
      failed execution exactly under that condition, and whatever they say the run goes on to a reflection while
      retries are left and ends otherwise. */
  lemma {:induction false} VerdictsOnEveryRun(
    policy: RetryPolicy, floor: real, correlationId: string, answers: nat -> Answer, n: nat)
    ensures var m := Graph.After(Graph.Start(policy, floor, correlationId), answers, n);
      var a := answers(m.visits);
      var t := Graph.Step(m, a);
      var left := m.run.state.retryCount < m.run.state.policy.maxRetries;
      && (m.phase == Graph.AtValidation && !Accepts(m.run.state) ==>
            Agree(t.run.state, RouteAfterValidation(t.run.state))
            && t.phase == (if left then Graph.AtReflection else Graph.Ended))
      && (m.phase == Graph.AtExecution && a.outcome.Raised? ==>
            (Agree(t.run.state, RouteAfterExecution(t.run.state)) <==> a.outcome.message != "" || !left)
            && t.phase == (if left then Graph.AtReflection else Graph.Ended))
  {
    var m := Graph.After(Graph.Start(policy, floor, correlationId), answers, n);
    Graph.ReachableInv(Graph.Start(policy, floor, correlationId), answers, n);
    hide Graph.After;
    if m.phase == Graph.AtValidation && !Accepts(m.run.state) {
      FailedValidation(m, answers(m.visits));
    }
    if m.phase == Graph.AtExecution && answers(m.visits).outcome.Raised? {
      FailedExecution(m, answers(m.visits));
    }
  }

  lemma FailedValidation(m: Graph.Machine, a: Answer)
    requires m.phase == Graph.AtValidation && !Accepts(m.run.state)
    ensures var t := Graph.Step(m, a);
      Agree(t.run.state, RouteAfterValidation(t.run.state))
      && t.phase == (if m.run.state.retryCount < m.run.state.policy.maxRetries then Graph.AtReflection else Graph.Ended)
  {
    hide ValidationNode, RouteAfterValidation, Accepts, Agree;
    RefusedValidation(m.run);
  }

  lemma RefusedValidation(r: Run)
    requires !Accepts(r.state)
    ensures var t := ValidationNode(r).state;
      Agree(t, RouteAfterValidation(t))
      && RouteAfterValidation(t) == (if r.state.retryCount < r.state.policy.maxRetries then ToReflection else ToEnd)
  {
    hide ValidationNode, RouteAfterValidation, Accepts, PolicyRetries;
    ValidationVerdicts(r);
  }

  lemma FailedExecution(m: Graph.Machine, a: Answer)
    requires Graph.Inv(m) && m.phase == Graph.AtExecution && a.outcome.Raised?
    ensures var t := Graph.Step(m, a);
      var left := m.run.state.retryCount < m.run.state.policy.maxRetries;
      (Agree(t.run.state, RouteAfterExecution(t.run.state)) <==> a.outcome.message != "" || !left)
      && t.phase == (if left then Graph.AtReflection else Graph.Ended)
  {
    hide Graph.Inv, ExecutionNode, RouteAfterExecution, Agree, Cleared;
    AtExecutionCleared(m);
    ClearedExecution(m.run, a);
  }

  lemma AtExecutionCleared(m: Graph.Machine)
    requires Graph.Inv(m) && m.phase == Graph.AtExecution
    ensures Cleared(m.run)
  {
    hide Sound, Cleared, Graph.Tally;
  }

  lemma ClearedExecution(r: Run, a: Answer)
    requires Cleared(r) && a.outcome.Raised?
    ensures var t := ExecutionNode(r, a).state;
      var left := r.state.retryCount < r.state.policy.maxRetries;
      (Agree(t, RouteAfterExecution(t)) <==> a.outcome.message != "" || !left)
      && RouteAfterExecution(t) == (if left then ToReflection else ToEnd)
  {
    hide ExecutionNode, RouteAfterExecution, PolicyRetries, Agree;
    ExecutionVerdicts(r, a);
    NoOtherRoute(ExecutionNode(r, a).state);
  }

  lemma NoOtherRoute(s: State)
    ensures RouteAfterExecution(s) == ToReflection || RouteAfterExecution(s) == ToEnd
  {
  }

  // ---------------------------------------------------------------- the loop's own decisions

  /** Where the loop goes, as a route. */
  function LoopRoute(point: Linear.Point): Route {
    if point == Linear.Reflecting then ToReflection else if point == Linear.Skipping then ToExecution else ToEnd
  }

  /** The loop decides inline, and decides as the routers do. */
  lemma SameRoutes(s: State)
    ensures LoopRoute(Linear.Edge(Linear.Validating, s)) == RouteAfterValidation(s)
    ensures LoopRoute(Linear.Edge(Linear.Executing, s)) == RouteAfterExecution(s)
  {
    hide RetryVerdict;
  }

  /** At every point of every run of the loop, whatever is answered next: the verdicts on a failed validation agree with
      the edge taken, those on a failed execution exactly if the exception has a text or no retry is left, and the loop
      goes on to a reflection exactly while retries are left. A failed reflection ends the run, whatever its verdicts.
      */
  lemma {:induction false} VerdictsInTheLoop(
    policy: RetryPolicy, floor: real, correlationId: string, answers: nat -> Answer, n: nat, a: Answer)
    ensures var c := Linear.After(Linear.Start(policy, floor, correlationId), answers, n);
      var t := Linear.Follow(c, a);
      var left := c.run.state.retryCount < policy.maxRetries;
      && (c.point == Linear.Validating && !Accepts(c.run.state) ==>
            Agree(t.run.state, LoopRoute(t.point)) && t.point == (if left then Linear.Reflecting else Linear.Done))
      && (c.point == Linear.Executing && a.outcome.Raised? ==>
            (Agree(t.run.state, LoopRoute(t.point)) <==> a.outcome.message != "" || !left)
            && t.point == (if left then Linear.Reflecting else Linear.Done))
      && (c.point == Linear.Reflecting && NoSql(Strip(a.text)) ==> t.point == Linear.Done)
  {
    var c := Linear.After(Linear.Start(policy, floor, correlationId), answers, n);
    Linear.LinearReachable(policy, floor, correlationId, answers, n);
    hide Linear.After;
    LoopVerdicts(c, policy, a);
    hide Linear.CursorInv, Linear.Follow, Agree, Accepts, NoSql;
  }

  lemma LoopVerdicts(c: Linear.Cursor, policy: RetryPolicy, a: Answer)
    requires Linear.CursorInv(c, policy)
    ensures var t := Linear.Follow(c, a);
      var left := c.run.state.retryCount < policy.maxRetries;
      && (c.point == Linear.Validating && !Accepts(c.run.state) ==>
            Agree(t.run.state, LoopRoute(t.point)) && t.point == (if left then Linear.Reflecting else Linear.Done))
      && (c.point == Linear.Executing && a.outcome.Raised? ==>
            (Agree(t.run.state, LoopRoute(t.point)) <==> a.outcome.message != "" || !left)
            && t.point == (if left then Linear.Reflecting else Linear.Done))
      && (c.point == Linear.Reflecting && NoSql(Strip(a.text)) ==> t.point == Linear.Done)
  {
    LoopPolicy(c, policy);
    if c.point == Linear.Validating && !Accepts(c.run.state) {
      LoopValidation(c, a);
    } else if c.point == Linear.Executing && a.outcome.Raised? {
      LoopExecution(c, a);
    } else if c.point == Linear.Reflecting && NoSql(Strip(a.text)) {
      LoopReflection(c, a);
    }
    hide Linear.CursorInv, Linear.Follow, Agree, Accepts, NoSql, LoopRoute;
  }

  lemma LoopPolicy(c: Linear.Cursor, policy: RetryPolicy)
    requires Linear.CursorInv(c, policy)
    ensures c.run.state.policy == policy || c.point == Linear.Done
    ensures c.point == Linear.Executing ==> Cleared(c.run)
  {
    hide Sound, Linear.Regenerated, Linear.Tally, Linear.Finished, Cleared;
  }

  lemma LoopValidation(c: Linear.Cursor, a: Answer)
    requires c.point == Linear.Validating && !Accepts(c.run.state)
    ensures var t := Linear.Follow(c, a);
      var left := c.run.state.retryCount < c.run.state.policy.maxRetries;
      Agree(t.run.state, LoopRoute(t.point)) && t.point == (if left then Linear.Reflecting else Linear.Done)
  {
    hide ValidationNode, RouteAfterValidation, RouteAfterExecution, Accepts, RetryVerdict, Agree, LoopRoute;
    RefusedValidation(c.run);
    SameRoutes(ValidationNode(c.run).state);
    EdgeOfRoute(ValidationNode(c.run).state);
  }

  lemma EdgeOfRoute(s: State)
    ensures LoopRoute(Linear.Edge(Linear.Validating, s)) == ToReflection
      <==> Linear.Edge(Linear.Validating, s) == Linear.Reflecting
    ensures LoopRoute(Linear.Edge(Linear.Validating, s)) == ToEnd <==> Linear.Edge(Linear.Validating, s) == Linear.Done
    ensures LoopRoute(Linear.Edge(Linear.Executing, s)) == ToReflection
      <==> Linear.Edge(Linear.Executing, s) == Linear.Reflecting
    ensures LoopRoute(Linear.Edge(Linear.Executing, s)) == ToEnd <==> Linear.Edge(Linear.Executing, s) == Linear.Done
  {
    hide RetryVerdict;
  }

  lemma LoopExecution(c: Linear.Cursor, a: Answer)
    requires c.point == Linear.Executing && Cleared(c.run) && a.outcome.Raised?
    ensures var t := Linear.Follow(c, a);
      var left := c.run.state.retryCount < c.run.state.policy.maxRetries;
      (Agree(t.run.state, LoopRoute(t.point)) <==> a.outcome.message != "" || !left)
      && t.point == (if left then Linear.Reflecting else Linear.Done)
  {
    hide ExecutionNode, RouteAfterValidation, RouteAfterExecution, RetryVerdict, Agree, LoopRoute, Cleared;
    ClearedExecution(c.run, a);
    SameRoutes(ExecutionNode(c.run, a).state);
    EdgeOfRoute(ExecutionNode(c.run, a).state);
  }

  lemma LoopReflection(c: Linear.Cursor, a: Answer)
    requires c.point == Linear.Reflecting && NoSql(Strip(a.text))
    ensures Linear.Follow(c, a).point == Linear.Done
  {
    assert OrElse(Strip(a.text), "Reflection failed to generate corrected SQL.") != "";
    hide Strip, RetryVerdict, PolicyVerdict, RecoveryHint, Telemetry.Record, ErrorConfidence;
  }
}
