/** What every node of the workflow keeps and leaves behind, whichever driver calls it. */
module WorkflowNodes {
  import opened Wrappers
  import opened Text
  import opened Retry
  import opened Workflow
  import Telemetry
  import Sql = SqlIntelligence

  /** One entry more; schema, policy and retry budget as they were. */
  ghost predicate Stepped(r: Run, t: Run, step: StepName, status: TraceStatus) {
    && t.state.trace == r.state.trace + [TraceEntry(step, status)]
    && t.state.schema == r.state.schema && t.state.policy == r.state.policy && t.state.floor == r.state.floor
    && t.state.retryCount == r.state.retryCount + (if step == Reflection && status != Skipped then 1 else 0)
  }

  lemma {:induction false} CountsSnoc(trace: seq<TraceEntry>, e: TraceEntry)
    ensures forall step ::
      Count(trace + [e], step) == Count(trace, step) + (if e.step == step && e.status != Skipped then 1 else 0)
  {
    forall step
      ensures Count(trace + [e], step) == Count(trace, step) + (if e.step == step && e.status != Skipped then 1 else 0)
    {
      CountSnoc(trace, e, step);
    }
  }

  lemma {:induction false} LogSnoc(log: seq<Call>, call: Call, schema: string)
    requires Guarded(log) && Vetted(log, schema)
    requires call.Queried? ==> log != [] && log[|log| - 1] == Checked(call.sql, true)
    requires call.Checked? && call.accepted ==> VettedSql(call.sql, schema)
    ensures Guarded(log + [call]) && Vetted(log + [call], schema)
    ensures Queries(log + [call]) == Queries(log) + (if call.Queried? then 1 else 0)
  {
    hide VettedSql;
    var l := log + [call];
    assert l[..|log|] == log;
    assert Queries(l) == Queries(log) + (if call.Queried? then 1 else 0);
    hide Queries;
    assert forall i :: 0 <= i < |log| ==> l[i] == log[i];
  }

  /** A node that records no telemetry and makes no call. */
  lemma QuietKeeps(r: Run, t: Run, step: StepName, status: TraceStatus)
    requires Sound(r) && Stepped(r, t, step, status) && !Metering(step)
    requires t.log == r.log && t.state.telemetry == r.state.telemetry && step != Execution && step != Reflection
    requires Tidy(t.state)
    ensures Sound(t)
  {
    hide Metered, Guarded, Vetted, Queries, Tidy, Count;
    CountSnoc(r.state.trace, TraceEntry(step, status), Reflection);
    CountSnoc(r.state.trace, TraceEntry(step, status), Execution);
    UnmeteredKeepsMetered(r.state, step, status, t.state);
  }

  /** A node that records telemetry and makes no logged call. */
  lemma MeteredKeeps(r: Run, t: Run, step: StepName, status: TraceStatus, u: Usage)
    requires Sound(r) && Stepped(r, t, step, status) && Metering(step)
    requires t.log == r.log && t.state.telemetry == Measured(r.state, step, u).telemetry && step != Execution
    requires Tidy(t.state) && t.state.retryCount <= t.state.policy.maxRetries
    ensures Sound(t)
  {
    hide Metered, Guarded, Vetted, Queries, Tidy, Count, Telemetry.Record;
    CountSnoc(r.state.trace, TraceEntry(step, status), Reflection);
    CountSnoc(r.state.trace, TraceEntry(step, status), Execution);
    MeasuredKeepsMetered(r.state, step, u, t.state);
  }

  lemma PlannerKeeps(r: Run)
    requires Sound(r)
    ensures Sound(PlannerNode(r)) && Stepped(r, PlannerNode(r), Planner, Success)
  {
    hide Sound, Metered;
    assert Tidy(r.state) by { SoundTidy(r); }
    QuietKeeps(r, PlannerNode(r), Planner, Success);
  }

  lemma SoundTidy(r: Run)
    requires Sound(r)
    ensures Tidy(r.state) && r.state.retryCount <= r.state.policy.maxRetries
  {
  }

  /** Loading the schema: nothing has been checked under another one yet. */
  lemma SchemaKeeps(r: Run, a: Answer)
    requires Sound(r) && r.log == [] && r.state.error == None
    ensures var t := SchemaNode(r, a);
      && Sound(t) && t.log == [] && (t.state.error == None <==> a.schema.Loaded?)
      && (a.schema.Loaded? ==> t.state.schema == Some(a.schema.text))
      && (a.schema.Unavailable? ==> t.state.schema == r.state.schema)
      && t.state.trace == r.state.trace + [TraceEntry(SchemaRetrieval, if a.schema.Loaded? then Success else Error)]
      && t.state.policy == r.state.policy && t.state.retryCount == r.state.retryCount
  {
    hide Metered, Count;
    var t := SchemaNode(r, a);
    var e := TraceEntry(SchemaRetrieval, if a.schema.Loaded? then Success else Error);
    CountSnoc(r.state.trace, e, Reflection);
    CountSnoc(r.state.trace, e, Execution);
    UnmeteredKeepsMetered(r.state, SchemaRetrieval, e.status, t.state);
  }

  lemma MemoryKeeps(r: Run, a: Answer)
    requires Sound(r)
    ensures Sound(MemoryNode(r, a)) && Stepped(r, MemoryNode(r, a), MemoryRetrieval, Success)
  {
    hide Sound, Metered, Telemetry.Record;
    SoundTidy(r);
    MeteredKeeps(r, MemoryNode(r, a), MemoryRetrieval, Success, Local("chromadb", a.usage.latency));
  }

  lemma GenerationKeeps(r: Run, a: Answer)
    requires Sound(r)
    ensures var t, status := GenerationNode(r, a), if NoSql(Strip(a.text)) then Error else Success;
      Sound(t) && !GuardFires(r.state) && Stepped(r, t, SqlGeneration, status)
      && t.log == r.log && t.state.rows == r.state.rows
      && (status == Success ==> t.state.error == None && t.state.sql == Some(Strip(a.text)))
      && (status == Error ==> Truthy(t.state.error))
  {
    hide Sound, Metered, Telemetry.Record, Judged, StartsWith, Strip;
    SoundTidy(r);
    StripTwice(a.text);
    var status := if NoSql(Strip(a.text)) then Error else Success;
    JudgedFrame(Measured(r.state, SqlGeneration, a.usage), SqlGeneration,
                OrElse(Strip(a.text), "SQL generation failed."));
    MeteredKeeps(r, GenerationNode(r, a), SqlGeneration, status, a.usage);
  }

  lemma JudgedFrame(s: State, step: StepName, error: string)
    ensures var t := Judged(s, step, error);
      t == s.(recovery := t.recovery, decision := t.decision, action := t.action)
      && t.recovery == Some(RecoveryHint(error, s.retryCount, s.policy.maxRetries))
      && t.decision == Some(RetryVerdict(s, error))
      && t.action == Some(PolicyVerdict(s, step, ErrorConfidence(0), error))
  {
  }

  /** Whether validation accepts what is in the state. */
  predicate Accepts(s: State) {
    Strip(TextOf(s.sql)) != "" && ReportOn(s).status != Sql.Failed
  }

  /** Validation accepts the SQL in the state, which it then logs as accepted and acceptable, or leaves an error. */
  lemma ValidationKeeps(r: Run) returns (status: TraceStatus)
    requires Sound(r)
    ensures var t := ValidationNode(r);
      Sound(t) && Stepped(r, t, Validation, status) && status != Skipped
      && t.state.rows == r.state.rows && t.state.sql == r.state.sql
      && (Accepts(r.state) ==> Cleared(t))
      && (!Accepts(r.state) ==> Truthy(t.state.error) && status == Error)
  {
    assert Strip("") == "";
    hide Sound, ReportOn, ValidationNode, Strip, Cleared, Stepped, Tidy;
    var t, s := ValidationNode(r), r.state;
    SoundTidy(r);
    var sql := Strip(TextOf(s.sql));
    status := if !Accepts(s) then Error else if ReportOn(s).status == Sql.Passed then Success else Warned;
    ValidationShape(r);
    if Accepts(s) { AcceptedCleared(r); }
    if sql == "" {
      QuietKeeps(r, t, Validation, status);
    } else {
      ReportVetted(s);
      CheckedKeeps(r, t, status, Checked(sql, Accepts(s)));
    }
  }

  lemma AcceptedCleared(r: Run)
    requires Tidy(r.state) && Accepts(r.state)
    ensures Cleared(ValidationNode(r))
  {
    ValidationShape(r);
    hide ReportOn, ValidationNode, Strip;
  }

  lemma ReportVetted(s: State)
    ensures ReportOn(s).status != Sql.Failed ==> VettedSql(Strip(TextOf(s.sql)), TextOf(s.schema))
  {
    Sql.AcceptedIff(Strip(TextOf(s.sql)), TextOf(s.schema));
    hide Sql.Validate, Sql.Acceptable, Strip;
  }

  lemma ValidationShape(r: Run)
    requires Tidy(r.state)
    ensures var t, s, sql := ValidationNode(r), r.state, Strip(TextOf(r.state.sql));
      && Stepped(r, t, Validation,
           if !Accepts(s) then Error else if ReportOn(s).status == Sql.Passed then Success else Warned)
      && t.state.rows == s.rows && t.state.sql == s.sql && t.state.telemetry == s.telemetry
      && t.log == (if sql == "" then r.log else r.log + [Checked(sql, Accepts(s))])
      && (if Accepts(s) then t.state.error == None else Truthy(t.state.error))
      && Tidy(t.state)
  {
    hide ReportOn, Judged, Strip, Join, ErrorTexts;
    var s := r.state;
    JudgedFrame(s, Validation, "No SQL was generated.");
    JudgedFrame(s, Validation, OrElse(Join("; ", ErrorTexts(ReportOn(s).errors)), "SQL validation failed."));
  }

  lemma CheckedKeeps(r: Run, t: Run, status: TraceStatus, call: Call)
    requires Sound(r) && Stepped(r, t, Validation, status) && Tidy(t.state)
    requires t.state.telemetry == r.state.telemetry
    requires call.Checked? && t.log == r.log + [call]
    requires call.accepted ==> VettedSql(call.sql, TextOf(r.state.schema))
    ensures Sound(t)
  {
    hide VettedSql, Metered, Guarded, Vetted, Queries, Tidy, Count;
    LogSnoc(r.log, call, TextOf(r.state.schema));
    CountSnoc(r.state.trace, TraceEntry(Validation, status), Reflection);
    CountSnoc(r.state.trace, TraceEntry(Validation, status), Execution);
    UnmeteredKeepsMetered(r.state, Validation, status, t.state);
  }

  /** A reflection spends one retry, so it needs one left. */
  lemma ReflectionKeeps(r: Run, a: Answer)
    requires Sound(r) && r.state.retryCount < r.state.policy.maxRetries
    ensures var t, status := ReflectionNode(r, a), if NoSql(Strip(a.text)) then Error else Retried;
      Sound(t) && Stepped(r, t, Reflection, status) && t.log == r.log && t.state.rows == r.state.rows
      && (status == Retried ==> t.state.error == None && t.state.sql == Some(Strip(a.text)))
      && (status == Error ==> Truthy(t.state.error) && t.state.sql == r.state.sql)
  {
    hide Sound, Metered, Telemetry.Record, RetryVerdict, PolicyVerdict, RecoveryHint, ErrorConfidence, StartsWith;
    hide Strip;
    SoundTidy(r);
    StripTwice(a.text);
    var status := if NoSql(Strip(a.text)) then Error else Retried;
    MeteredKeeps(r, ReflectionNode(r, a), Reflection, status, a.usage);
  }

  /** Skipping leaves the clearance of the SQL in place; it leaves an entry exactly when there is none yet. */
  lemma SkipKeeps(r: Run)
    requires Sound(r)
    ensures var t := ReflectionSkipNode(r);
      Sound(t) && (t == r || Stepped(r, t, Reflection, Skipped)) && t.log == r.log
      && t.state.rows == r.state.rows && (Cleared(r) ==> Cleared(t))
  {
    hide Sound, Metered, Telemetry.Record, Reflected;
    SoundTidy(r);
    if !Reflected(r.state.trace) {
      MeteredKeeps(r, ReflectionSkipNode(r), Reflection, Skipped, Local("workflow", Some(0)));
    }
  }

  lemma ExecutionShape(r: Run, a: Answer)
    requires Tidy(r.state) && Cleared(r)
    ensures var t, status := ExecutionNode(r, a), if a.outcome.Rows? then Success else Error;
      && Stepped(r, t, Execution, status) && Tidy(t.state)
      && t.state.telemetry == Measured(r.state, Execution, Local("sqlite", a.usage.latency)).telemetry
      && t.log == r.log + [Queried(r.state.sql.value, a.outcome)] && t.state.sql == r.state.sql
      && (status == Success ==> t.state.error == None && Rows(t.state.columns, t.state.rows) == a.outcome)
      && (status == Error ==> Truthy(t.state.error) && t.state.rows == [])
  {
    hide Telemetry.Record, RetryVerdict, PolicyVerdict, RecoveryHint, ErrorConfidence, Strip;
    assert |"SQL execution failed: "| > 0;
  }

  lemma QueriedKeeps(r: Run, t: Run, status: TraceStatus, call: Call, u: Usage)
    requires Sound(r) && Cleared(r) && Stepped(r, t, Execution, status) && Tidy(t.state) && status != Skipped
    requires t.state.telemetry == Measured(r.state, Execution, u).telemetry
    requires call.Queried? && call.sql == r.state.sql.value && t.log == r.log + [call]
    ensures Sound(t)
  {
    hide Metered, Guarded, Vetted, Queries, Tidy, Count, Telemetry.Record;
    LogSnoc(r.log, call, TextOf(r.state.schema));
    CountSnoc(r.state.trace, TraceEntry(Execution, status), Reflection);
    CountSnoc(r.state.trace, TraceEntry(Execution, status), Execution);
    MeasuredKeepsMetered(r.state, Execution, u, t.state);
  }

  /** Executing cleared SQL: it delivers rows, or leaves an error and none. */
  lemma ExecutionKeeps(r: Run, a: Answer)
    requires Sound(r) && Cleared(r)
    ensures var t, status := ExecutionNode(r, a), if a.outcome.Rows? then Success else Error;
      Sound(t) && Stepped(r, t, Execution, status)
      && (status == Success ==> t.state.error == None && Delivered(t))
      && (status == Error ==> Truthy(t.state.error) && t.state.rows == [])
  {
    hide ExecutionNode, Sound, Measured;
    SoundTidy(r);
    ExecutionShape(r, a);
    QueriedKeeps(r, ExecutionNode(r, a), if a.outcome.Rows? then Success else Error,
                 Queried(r.state.sql.value, a.outcome), Local("sqlite", a.usage.latency));
  }

  lemma DeliveredLast(r: Run)
    ensures Delivered(r) ==>
      r.state.trace != [] && r.state.trace[|r.state.trace| - 1] == TraceEntry(Execution, Success)
  {
  }

  // ---------------------------------------------------------------- what a failure leaves for the repair

  /** The state remembers what went wrong: the SQL at fault is the SQL in the state, with the error and its source. */
  predicate RemembersFailure(s: State) {
    && s.lastFailedSql == TextOf(s.sql) && s.lastError.Some?
    && ((s.lastErrorSource == Some(Validation) && s.error == s.lastError)
        || (s.lastErrorSource == Some(Execution) && s.error == Some("SQL execution failed: " + s.lastError.value)))
  }

  lemma FailedValidationRemembered(r: Run)
    requires Tidy(r.state) && Truthy(ValidationNode(r).state.error)
    ensures RemembersFailure(ValidationNode(r).state)
  {
    assert Strip("") == "";
    hide Strip, ReportOn, Join, ErrorTexts, RetryVerdict, PolicyVerdict, RecoveryHint;
  }

  lemma FailedExecutionRemembered(r: Run, a: Answer)
    requires Cleared(r) && Truthy(ExecutionNode(r, a).state.error)
    ensures RemembersFailure(ExecutionNode(r, a).state)
  {
    hide Measured, RetryVerdict, PolicyVerdict, RecoveryHint;
  }
}
