/** Bookkeeping the event log keeps over every sequence of operations, and the totals of one full run. */
module Ledger {
  import opened Wrappers
  import opened Models
  import opened Stores
  import opened Service
  import opened Effects

  function CountKind(events: seq<Event>, kind: EventType): nat {
    if events == [] then 0 else (if events[0].kind == kind then 1 else 0) + CountKind(events[1..], kind)
  }

  function CountStage(stages: seq<StageProgress>, stage: Stage): nat {
    if stages == [] then 0
    else CountStage(stages[..|stages| - 1], stage) + (if stages[|stages| - 1].stage == stage then 1 else 0)
  }

  lemma {:induction false} CountOne(e: Event, kind: EventType)
    ensures CountKind([e], kind) == if e.kind == kind then 1 else 0
  {
    assert [e][1..] == [];
  }

  lemma {:induction false} CountConcat(a: seq<Event>, b: seq<Event>, kind: EventType)
    ensures CountKind(a + b, kind) == CountKind(a, kind) + CountKind(b, kind)
  {
    if a == [] {
      assert a + b == b;
    } else {
      CountConcat(a[1..], b, kind);
      assert (a + b)[1..] == a[1..] + b;
    }
  }

  lemma {:induction false} CountHandoffs(traces: seq<Trace>, clock: seq<Timestamp>, from: nat, kind: EventType, n: nat)
    requires n <= |traces|
    ensures CountKind(HandoffEvents(traces, clock, from)[..n], kind) == if kind == AgentHandoff then n else 0
  {
    if n > 0 {
      var all := HandoffEvents(traces, clock, from);
      CountHandoffs(traces, clock, from, kind, n - 1);
      CountConcat(all[..n - 1], [all[n - 1]], kind);
      assert all[..n] == all[..n - 1] + [all[n - 1]];
    }
  }

  lemma {:induction false} CountStageEvents(stage: Stage, traces: seq<Trace>, clock: seq<Timestamp>, kind: EventType)
    ensures CountKind(StageEvents(stage, traces, clock), kind)
         == match kind
            case AgentHandoff => |traces|
            case StageTransition => 1
            case InvestigationUpdate => if stage == InsightGeneration then 1 else 0
            case _ => 0
  {
    var told := HandoffEvents(traces, clock, |traces| + 1);
    var closing := ClosingEvents(stage, clock, 2 * |traces| + 1);
    CountHandoffs(traces, clock, |traces| + 1, kind, |traces|);
    assert told[..|traces|] == told;
    CountConcat(told, closing, kind);
    if stage == InsightGeneration {
      CountConcat([closing[0]], [closing[1]], kind);
      assert closing == [closing[0]] + [closing[1]];
    }
  }

  lemma {:induction false} CountTransitionEvents(w: Workflow, status: Status, clock: seq<Timestamp>, kind: EventType)
    ensures CountKind(TransitionEvents(w, status, clock), kind)
         == match kind
            case LifecycleTransition => 1
            case TelemetryUpdate => if Transitioned(w, status, clock).telemetry != w.telemetry then 1 else 0
            case _ => 0
  {
    var all := TransitionEvents(w, status, clock);
    CountConcat([all[0]], all[1..], kind);
    assert all == [all[0]] + all[1..];
  }

  /** Hand-off events match stored hand-offs match agents beyond one per stage; stage-transition events match
      recorded stages; investigation events match recorded insight stages; the workflow was created once. */
  ghost predicate Balanced(s: Stores, id: Id)
    requires id in s.workflows
  {
    var w, events, traces := s.workflows[id], ListOf(s.events, id), ListOf(s.traces, id);
    && CountKind(events, AgentHandoff) == |traces|
    && |w.agents| == |traces| + |w.stages|
    && CountKind(events, StageTransition) == |w.stages|
    && CountKind(events, InvestigationUpdate) == CountStage(w.stages, InsightGeneration)
    && CountKind(events, WorkflowCreated) == 1
    && CountKind(events, TelemetryUpdate) <= CountKind(events, LifecycleTransition)
  }

  ghost predicate LedgerInv(s: Stores) {
    && Consistent(s)
    && (forall id :: id in s.workflows ==> Balanced(s, id))
    && (forall id :: id !in s.workflows ==> ListOf(s.events, id) == [] && ListOf(s.traces, id) == [])
  }

  lemma TransitionBalanced(s: State, id: Id, status: Status, clock: seq<Timestamp>)
    requires LedgerInv(s.stores) && id in s.stores.workflows
    ensures id in Apply(s, Transition(id, status, clock)).stores.workflows
    ensures Balanced(Apply(s, Transition(id, status, clock)).stores, id)
  {
    hide Apply;
    var w, events := s.stores.workflows[id], ListOf(s.stores.events, id);
    TransitionEffect(s, id, status, clock);
    forall kind: EventType
      ensures CountKind(events + TransitionEvents(w, status, clock), kind)
           == CountKind(events, kind) + CountKind(TransitionEvents(w, status, clock), kind)
    {
      CountConcat(events, TransitionEvents(w, status, clock), kind);
    }
    CountTransitionEvents(w, status, clock, AgentHandoff);
    CountTransitionEvents(w, status, clock, StageTransition);
    CountTransitionEvents(w, status, clock, InvestigationUpdate);
    CountTransitionEvents(w, status, clock, WorkflowCreated);
    CountTransitionEvents(w, status, clock, TelemetryUpdate);
    CountTransitionEvents(w, status, clock, LifecycleTransition);
  }

  lemma StageBalanced(s: State, id: Id, stage: Stage, policy: AgentPolicy, clock: seq<Timestamp>)
    requires LedgerInv(s.stores) && id in s.stores.workflows
    ensures id in Apply(s, CompleteStage(id, stage, policy, clock)).stores.workflows
    ensures Balanced(Apply(s, CompleteStage(id, stage, policy, clock)).stores, id)
  {
    hide Apply, AgentNames;
    var w, events := s.stores.workflows[id], ListOf(s.stores.events, id);
    var names := AgentNames(stage, policy);
    var traces := Handoffs(names, w.question, clock);
    StageEffect(s, id, stage, policy, clock);
    forall kind: EventType
      ensures CountKind(events + StageEvents(stage, traces, clock), kind)
           == CountKind(events, kind) + CountKind(StageEvents(stage, traces, clock), kind)
    {
      CountConcat(events, StageEvents(stage, traces, clock), kind);
    }
    CountStageEvents(stage, traces, clock, AgentHandoff);
    CountStageEvents(stage, traces, clock, StageTransition);
    CountStageEvents(stage, traces, clock, InvestigationUpdate);
    CountStageEvents(stage, traces, clock, WorkflowCreated);
    CountStageEvents(stage, traces, clock, TelemetryUpdate);
    CountStageEvents(stage, traces, clock, LifecycleTransition);
    var progress := StageProgress(stage, Completed, Reading(clock, |traces|));
    assert (w.stages + [progress])[..|w.stages|] == w.stages;
  }

  lemma ApplyKeepsLedger(s: State, op: Op)
    requires LedgerInv(s.stores) && Legal(s, op) && op.id != LATEST
    ensures LedgerInv(Apply(s, op).stores)
  {
    hide Apply, Writes;
    var t := Apply(s, op);
    ApplyKeepsConsistent(s, op);
    GetConcrete(s.stores, op.id);
    forall id | id != op.id ensures SameFor(s.stores, t.stores, id) {
      UntouchedKept(s, op, id);
    }
    if Touches(s.stores, op, op.id) {
      match op {
        case Create(_, question, _, _, _, clock) =>
          CreateEffect(s, op);
          var e := Event(Reading(clock, 1), WorkflowCreated, CreatedFor(question));
          forall kind: EventType ensures CountKind([e], kind) == if kind == WorkflowCreated then 1 else 0 {
            CountOne(e, kind);
          }
          assert ListOf(t.stores.events, op.id) == [e];
        case Transition(id, status, clock) => TransitionBalanced(s, id, status, clock);
        case CompleteStage(id, stage, policy, clock) => StageBalanced(s, id, stage, policy, clock);
      }
    } else {
      UntouchedKept(s, op, op.id);
    }
    forall id | id in t.stores.workflows ensures Balanced(t.stores, id) {
      if id != op.id || !Touches(s.stores, op, op.id) {
        assert SameFor(s.stores, t.stores, id);
        assert Balanced(s.stores, id);
      }
    }
    forall id | id !in t.stores.workflows
      ensures ListOf(t.stores.events, id) == [] && ListOf(t.stores.traces, id) == []
    {
      assert SameFor(s.stores, t.stores, id);
    }
  }

  lemma {:induction false} RunKeepsLedger(s: State, ops: seq<Op>)
    requires LedgerInv(s.stores) && LegalRun(s, ops)
    requires forall i :: 0 <= i < |ops| ==> ops[i].id != LATEST
    ensures LedgerInv(Run(s, ops).stores)
    decreases |ops|
  {
    hide Apply;
    if ops != [] {
      ApplyKeepsLedger(s, ops[0]);
      RunKeepsLedger(Apply(s, ops[0]), ops[1..]);
    }
  }

  lemma EmptyLedger()
    ensures LedgerInv(EMPTY.stores)
  {
  }

  /** The ledger balances for every workflow after every sequence of operations. */
  lemma {:induction false} EventLedger(ops: seq<Op>, id: Id)
    requires LegalRun(EMPTY, ops) && forall i :: 0 <= i < |ops| ==> ops[i].id != LATEST
    requires id in Run(EMPTY, ops).stores.workflows
    ensures Balanced(Run(EMPTY, ops).stores, id)
  {
    hide Run, Apply, LegalRun, Balanced, Consistent;
    EmptyLedger();
    RunKeepsLedger(EMPTY, ops);
  }

  // ---------------------------------------------------------------- the totals of a run

  /** Agents beyond one per stage. */
  function Extras(policy: AgentPolicy): nat {
    (if policy.reflection then 1 else 0) + (if policy.anomalyInvestigation then 2 else 0)
    + (if policy.executiveBriefing then 1 else 0)
  }

  function StageExtras(stage: Stage, policy: AgentPolicy): (n: nat)
    ensures n == |AgentNames(stage, policy)| - 1
  {
    if stage == Validation then if policy.reflection then 1 else 0
    else if stage == InsightGeneration then
      (if policy.anomalyInvestigation then 2 else 0) + (if policy.executiveBriefing then 1 else 0)
    else 0
  }

  function ExtrasUpTo(policy: AgentPolicy, n: nat): nat
    requires n <= 6
  {
    if n == 0 then 0 else ExtrasUpTo(policy, n - 1) + StageExtras(WORKFLOW_STAGES[n - 1], policy)
  }

  /** After `n` stages of a run: every stage in order, and the counts so far. */
  ghost predicate Progress(s: State, id: Id, policy: AgentPolicy, n: nat, at: Timestamp)
    requires n <= 6
  {
    && Consistent(s.stores) && id in s.stores.workflows && id != LATEST
    && var w := s.stores.workflows[id];
    && |w.stages| == n && (forall i :: 0 <= i < n ==> w.stages[i].stage == WORKFLOW_STAGES[i])
    && w.currentStage == (if n == 0 then None else Some(WORKFLOW_STAGES[n - 1]))
    && w.telemetry.startedAt == Some(at) && w.telemetry.completedAt.None?
    && |w.agents| == n + ExtrasUpTo(policy, n)
    && |ListOf(s.stores.traces, id)| == ExtrasUpTo(policy, n)
    && |ListOf(s.stores.events, id)| == 3 + n + ExtrasUpTo(policy, n) + (if n == 6 then 1 else 0)
  }

  /** Started and completed at the times given, the latency the whole milliseconds between them, none if the clock went
      backwards. */
  predicate TimedFrom(t: Telemetry, start: Timestamp, end: Timestamp) {
    && t.startedAt == Some(start) && t.completedAt == Some(end) && t.latencyMs.Some?
    && (if end >= start then 1000 * t.latencyMs.value <= end - start < 1000 * t.latencyMs.value + 1000
        else t.latencyMs.value == 0)
    && t.usage.total == t.usage.prompt + t.usage.completion && t.costUsd == t.usage.total as real * 0.000002
  }

  lemma Started(s: State, create: Op, policy: AgentPolicy, clock: seq<Timestamp>)
    requires LedgerInv(s.stores) && create.Create? && Legal(s, create)
    ensures Progress(Apply(Apply(s, create), Transition(create.id, Running, clock)), create.id, policy, 0,
                     Reading(clock, 0))
  {
    hide Apply, Writes;
    CreateEffect(s, create);
    ApplyKeepsConsistent(s, create);
    var mid := Apply(s, create);
    TransitionEffect(mid, create.id, Running, clock);
    ApplyKeepsConsistent(mid, Transition(create.id, Running, clock));
  }

  lemma StageProgresses(
    s: State, id: Id, policy: AgentPolicy, n: nat, clock: seq<Timestamp>, at: Timestamp)
    requires n < 6 && Progress(s, id, policy, n, at)
    ensures Progress(Apply(s, CompleteStage(id, WORKFLOW_STAGES[n], policy, clock)), id, policy, n + 1, at)
  {
    hide Apply, Writes, AgentNames;
    StageEffect(s, id, WORKFLOW_STAGES[n], policy, clock);
    ApplyKeepsConsistent(s, CompleteStage(id, WORKFLOW_STAGES[n], policy, clock));
  }

  lemma {:induction false} StagesProgress(
    s: State, id: Id, policy: AgentPolicy, clocks: seq<seq<Timestamp>>, n: nat, at: Timestamp)
    requires |clocks| == 8 && n <= 6
    requires Progress(Apply(s, RunOps(id, policy, clocks)[0]), id, policy, 0, at)
    ensures Progress(Run(s, RunOps(id, policy, clocks)[..n + 1]), id, policy, n, at)
  {
    hide Apply, Progress;
    var ops := RunOps(id, policy, clocks);
    RunSnoc(s, ops[..n], ops[n]);
    assert ops[..n + 1] == ops[..n] + [ops[n]];
    if n == 0 {
      assert ops[..0] == [];
    } else {
      StagesProgress(s, id, policy, clocks, n - 1, at);
      StageProgresses(Run(s, ops[..n]), id, policy, n - 1, clocks[n], at);
    }
  }

  /** A fresh workflow run to the end: all six stages in order, and counts that depend on the policy alone.
      Under the default policy that is 6 stages, 10 agents, 4 hand-offs and 16 events. */
  lemma FreshRunTotals(s: State, create: Op, policy: AgentPolicy, clocks: seq<seq<Timestamp>>)
    requires LedgerInv(s.stores) && create.Create? && Legal(s, create) && |clocks| == 8
    ensures var t := Run(Apply(s, create), RunOps(create.id, policy, clocks)).stores;
      && create.id in t.workflows
      && var w := t.workflows[create.id];
      && w.status == Completed && TimedFrom(w.telemetry, Reading(clocks[0], 0), Reading(clocks[7], 0))
      && w.currentStage == Some(InsightGeneration)
      && |w.stages| == 6 && (forall i :: 0 <= i < 6 ==> w.stages[i].stage == WORKFLOW_STAGES[i])
      && |w.agents| == 6 + Extras(policy)
      && |ListOf(t.traces, create.id)| == Extras(policy)
      && |ListOf(t.events, create.id)| == 12 + Extras(policy)
    ensures policy == DEFAULT_POLICY ==> Extras(policy) == 4
  {
    hide Apply, Run, TimedFrom, BuildTelemetry, ExtrasUpTo, Extras, RunOps;
    var s0, ops := Apply(s, create), RunOps(create.id, policy, clocks);
    BeforeLast(s, create, policy, clocks, 6);
    var s7 := Run(s0, ops[..7]);
    Completing(s7, create.id, policy, Reading(clocks[0], 0), clocks[7]);
    assert Run(s0, ops) == Apply(s7, Transition(create.id, Completed, clocks[7])) by {
      LastIsCompletion(create.id, policy, clocks);
      RunSnoc(s0, ops[..7], ops[7]);
      assert ops == ops[..7] + [ops[7]];
    }
    assert Extras(DEFAULT_POLICY) == 4 by { DefaultExtras(); }
  }

  lemma LastIsCompletion(id: Id, policy: AgentPolicy, clocks: seq<seq<Timestamp>>)
    requires |clocks| == 8
    ensures RunOps(id, policy, clocks)[7] == Transition(id, Completed, clocks[7])
  {
  }

  lemma DefaultExtras()
    ensures Extras(DEFAULT_POLICY) == 4
  {
  }

  lemma CompletedTimed(w: Workflow, at: Timestamp, clock: seq<Timestamp>)
    requires w.telemetry.startedAt == Some(at)
    ensures TimedFrom(Transitioned(w, Completed, clock).telemetry, at, Reading(clock, 0))
    ensures TimedFrom(Transitioned(w, Failed, clock).telemetry, at, Reading(clock, 0))
    ensures Transitioned(w, Completed, clock).telemetry.completedAt.Some?
    ensures Transitioned(w, Failed, clock).telemetry.completedAt.Some?
  {
  }

  lemma Completing(s: State, id: Id, policy: AgentPolicy, at: Timestamp, clock: seq<Timestamp>)
    requires Progress(s, id, policy, 6, at)
    ensures var t := Apply(s, Transition(id, Completed, clock)).stores;
      && id in t.workflows
      && var w := t.workflows[id];
      && w.status == Completed && TimedFrom(w.telemetry, at, Reading(clock, 0))
      && w.currentStage == Some(InsightGeneration)
      && |w.stages| == 6 && (forall i :: 0 <= i < 6 ==> w.stages[i].stage == WORKFLOW_STAGES[i])
      && |w.agents| == 6 + Extras(policy)
      && |ListOf(t.traces, id)| == Extras(policy) && |ListOf(t.events, id)| == 12 + Extras(policy)
  {
    hide Apply, TimedFrom, BuildTelemetry, ExtrasUpTo, Extras;
    TransitionEffect(s, id, Completed, clock);
    CompletedTimed(s.stores.workflows[id], at, clock);
    ExtrasTotal(policy);
  }

  lemma {:induction false} ExtrasTotal(policy: AgentPolicy)
    ensures ExtrasUpTo(policy, 6) == Extras(policy)
  {
    assert ExtrasUpTo(policy, 0) == ExtrasUpTo(policy, 1) == 0;
    assert ExtrasUpTo(policy, 3) == ExtrasUpTo(policy, 2) == 0;
    assert ExtrasUpTo(policy, 5) == ExtrasUpTo(policy, 4) == StageExtras(Validation, policy);
  }

  // ---------------------------------------------------------------- the totals of a run that fails

  /** Failed after `n` stages, all of them recorded in order, with what they left and `events` events. */
  ghost predicate FailedAfter(
    t: Stores, id: Id, policy: AgentPolicy, n: nat, events: nat, start: Timestamp, end: Timestamp)
    requires n <= 6
  {
    && id in t.workflows
    && var w := t.workflows[id];
    && w.status == Failed && TimedFrom(w.telemetry, start, end)
    && |w.stages| == n && (forall i :: 0 <= i < n ==> w.stages[i].stage == WORKFLOW_STAGES[i])
    && w.currentStage == (if n == 0 then None else Some(WORKFLOW_STAGES[n - 1]))
    && |w.agents| == n + ExtrasUpTo(policy, n) && |ListOf(t.traces, id)| == ExtrasUpTo(policy, n)
    && |ListOf(t.events, id)| == events
  }

  /** The events of a run that failed after `n` stages: two each for its start and its failure. */
  function FailedEvents(policy: AgentPolicy, n: nat): nat
    requires n <= 6
  {
    5 + n + ExtrasUpTo(policy, n) + (if n == 6 then 1 else 0)
  }

  lemma Failing(s: State, id: Id, policy: AgentPolicy, n: nat, at: Timestamp, clock: seq<Timestamp>)
    requires n <= 6 && Progress(s, id, policy, n, at)
    ensures FailedAfter(Apply(s, Transition(id, Failed, clock)).stores, id, policy, n, FailedEvents(policy, n), at,
                        Reading(clock, 0))
  {
    hide Apply, TimedFrom, BuildTelemetry, ExtrasUpTo;
    TransitionEffect(s, id, Failed, clock);
    CompletedTimed(s.stores.workflows[id], at, clock);
  }

  lemma FailingUnstarted(s: State, create: Op, policy: AgentPolicy, clock: seq<Timestamp>)
    requires LedgerInv(s.stores) && create.Create? && Legal(s, create)
    ensures FailedAfter(Apply(Apply(s, create), Transition(create.id, Failed, clock)).stores, create.id, policy, 0, 3,
                        Reading(clock, 0), Reading(clock, 0))
  {
    hide Apply, Writes;
    CreateEffect(s, create);
    ApplyKeepsConsistent(s, create);
    TransitionEffect(Apply(s, create), create.id, Failed, clock);
  }

  /** A fresh workflow one of whose calls raises: it ends failed, with exactly the stages of the calls before, in order,
      and timed from its start, or from the failure itself if the start raised. */
  lemma FailedRunTotals(
    s: State, create: Op, policy: AgentPolicy, clocks: seq<seq<Timestamp>>, raising: nat, failClock: seq<Timestamp>)
    requires LedgerInv(s.stores) && create.Create? && Legal(s, create) && |clocks| == 8 && raising < 8
    ensures var t := Run(Apply(s, create), RunUntil(create.id, policy, clocks, raising, failClock)).stores;
      if raising == 0 then FailedAfter(t, create.id, policy, 0, 3, Reading(failClock, 0), Reading(failClock, 0))
      else FailedAfter(t, create.id, policy, raising - 1, FailedEvents(policy, raising - 1), Reading(clocks[0], 0),
                       Reading(failClock, 0))
  {
    var s0, ops := Apply(s, create), RunOps(create.id, policy, clocks);
    RunUntilIs(s0, create.id, policy, clocks, raising, failClock);
    hide Apply, FailedAfter, Run, FailedEvents, LedgerInv, RunUntil, RunOps, Legal;
    if raising == 0 {
      NothingRun(s0, ops);
      FailingUnstarted(s, create, policy, failClock);
    } else {
      BeforeLast(s, create, policy, clocks, raising - 1);
      Failing(Run(s0, ops[..raising]), create.id, policy, raising - 1, Reading(clocks[0], 0), failClock);
    }
  }

  lemma BeforeLast(s: State, create: Op, policy: AgentPolicy, clocks: seq<seq<Timestamp>>, n: nat)
    requires LedgerInv(s.stores) && create.Create? && Legal(s, create) && |clocks| == 8 && n <= 6
    ensures Progress(Run(Apply(s, create), RunOps(create.id, policy, clocks)[..n + 1]), create.id, policy, n,
                     Reading(clocks[0], 0))
  {
    hide Apply, Progress;
    Started(s, create, policy, clocks[0]);
    FirstIsStart(create.id, policy, clocks);
    hide RunOps;
    StagesProgress(Apply(s, create), create.id, policy, clocks, n, Reading(clocks[0], 0));
  }

  lemma {:induction false} RunUntilIs(
    s: State, id: Id, policy: AgentPolicy, clocks: seq<seq<Timestamp>>, raising: nat, failClock: seq<Timestamp>)
    requires |clocks| == 8 && raising < 8
    ensures Run(s, RunUntil(id, policy, clocks, raising, failClock))
         == Apply(Run(s, RunOps(id, policy, clocks)[..raising]), Transition(id, Failed, failClock))
  {
    hide Apply, Run;
    RunSnoc(s, RunOps(id, policy, clocks)[..raising], Transition(id, Failed, failClock));
  }

  lemma {:induction false} NothingRun(s: State, ops: seq<Op>)
    ensures Run(s, ops[..0]) == s
  {
  }

  lemma FirstIsStart(id: Id, policy: AgentPolicy, clocks: seq<seq<Timestamp>>)
    requires |clocks| == 8
    ensures RunOps(id, policy, clocks)[0] == Transition(id, Running, clocks[0])
  {
  }
}
