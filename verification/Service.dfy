/** OrchestrationService (backend/services.py): lifecycle operations over split stores, an append-only
    event log, and the memoised stream view. */
module Service {
  import opened Wrappers
  import opened Models
  import opened Stores
  import Sorting
  import Text

  // ---------------------------------------------------------------- the stream view

  /** Everything `get_stream_updates` reads for one id. */
  datatype View = View(workflow: Workflow, events: seq<Event>, telemetry: Telemetry)

  datatype CacheKey = CacheKey(
    status: Status, currentStage: Option<Stage>, stageCount: nat, agentCount: nat, eventCount: nat,
    lastEventAt: Option<Timestamp>, completedAt: Option<Timestamp>, latencyMs: Option<nat>, costUsd: real)

  datatype CacheEntry = CacheEntry(key: CacheKey, updates: seq<Update>)

  function KeyOf(v: View): CacheKey {
    CacheKey(v.workflow.status, v.workflow.currentStage, |v.workflow.stages|, |v.workflow.agents|, |v.events|,
             if v.events == [] then None else Some(v.events[|v.events| - 1].timestamp),
             v.telemetry.completedAt, v.telemetry.latencyMs, v.telemetry.costUsd)
  }

  function EventUpdates(events: seq<Event>): seq<Update> {
    seq(|events|, i requires 0 <= i < |events| =>
      Update(events[i].timestamp, WorkflowEventUpdate, events[i].message, OfEvent(events[i])))
  }

  /** The updates of type `kind` made from the events of type `source`. */
  function UpdatesOfKind(events: seq<Event>, source: EventType, kind: UpdateType): seq<Update> {
    if events == [] then []
    else
      (if events[0].kind == source
       then [Update(events[0].timestamp, kind, events[0].message, OfEvent(events[0]))] else [])
      + UpdatesOfKind(events[1..], source, kind)
  }

  function StageUpdates(stages: seq<StageProgress>): seq<Update> {
    seq(|stages|, i requires 0 <= i < |stages| =>
      Update(stages[i].timestamp, StageUpdate, StageCompleted(stages[i].stage), OfStage(stages[i])))
  }

  /** When a stage was last recorded. */
  function StageTime(stages: seq<StageProgress>, stage: AgentStage): Option<Timestamp> {
    if stages == [] then None
    else
      var last := stages[|stages| - 1];
      if stage == OnStage(last.stage) then Some(last.timestamp) else StageTime(stages[..|stages| - 1], stage)
  }

  /** An agent whose stage is not recorded is stamped with the current time instead. */
  function AgentUpdates(agents: seq<Agent>, stages: seq<StageProgress>, clock: seq<Timestamp>): seq<Update> {
    seq(|agents|, i requires 0 <= i < |agents| =>
      var recorded := StageTime(stages, agents[i].stage);
      Update(if recorded.Some? then recorded.value else Reading(clock, i), AgentUpdate,
             AgentCompleted(agents[i].name, agents[i].stage), OfAgent(agents[i])))
  }

  function TelemetryUpdates(t: Telemetry): seq<Update> {
    (if t.startedAt.Some?
     then [Update(t.startedAt.value, TelemetryStreamUpdate, TelemetryStarted, OfStart(t.startedAt.value))] else [])
    + (if t.completedAt.Some?
       then [Update(t.completedAt.value, TelemetryStreamUpdate, TelemetryCompleted, OfTelemetry(t))] else [])
  }

  function UpdateKey(u: Update): real { u.timestamp as real }

  function Unsorted(v: View, clock: seq<Timestamp>): seq<Update> {
    EventUpdates(v.events)
    + UpdatesOfKind(v.events, EventType.LifecycleTransition, LifecycleUpdate)
    + UpdatesOfKind(v.events, EventType.InvestigationUpdate, InvestigationStreamUpdate)
    + StageUpdates(v.workflow.stages)
    + AgentUpdates(v.workflow.agents, v.workflow.stages, clock)
    + TelemetryUpdates(v.telemetry)
  }

  /** The stream view recomputed from the stores. */
  function StreamUpdates(v: View, clock: seq<Timestamp>): seq<Update> {
    Sorting.SortBy(UpdateKey, Unsorted(v, clock))
  }

  // ---------------------------------------------------------------- state and operations

  datatype State = State(stores: Stores, cache: map<Id, CacheEntry>)

  const EMPTY := State(NO_STORES, map[])

  function ViewOf(s: Stores, id: Id): Option<View> {
    match GetWorkflow(s, id)
    case None => None
    case Some(w) =>
      Some(View(w, ListOf(s.events, id), if id in s.telemetry then s.telemetry[id] else w.telemetry))
  }

  /** The cache slots a write throws away before it reaches the stores. */
  function Invalidated(write: Write): set<Id> {
    match write
    case Save(w) => {w.id}
    case SaveTraces(_, _, _, _) => {}
    case Append(id, _, _, _) => {id}
  }

  function Perform(s: State, write: Write): State {
    State(WriteMemory(s.stores, write), s.cache - Invalidated(write))
  }

  function PerformAll(s: State, writes: seq<Write>): State {
    if writes == [] then s else Perform(PerformAll(s, writes[..|writes| - 1]), writes[|writes| - 1])
  }

  function EstimateUsage(question: string): TokenUsage {
    var words := Text.WordCount(question);
    var prompt := (if words >= 1 then words else 1) + 16;
    TokenUsage(prompt, 24, prompt + 24)
  }

  function BuildTelemetry(w: Workflow, status: Status, now: Timestamp): Telemetry {
    if status == Running then NO_TELEMETRY.(startedAt := Some(now))
    else if status != Completed && status != Failed then w.telemetry
    else
      var started := if w.telemetry.startedAt.Some? then w.telemetry.startedAt.value else now;
      var usage := EstimateUsage(w.question);
      Telemetry(Some(started), Some(now), Some(if now >= started then (now - started) / 1000 else 0),
                usage.total as real * 0.000002, usage)
  }

  function NewWorkflow(
    id: Id, question: string, workspace: string, org: string, user: string, now: Timestamp): Workflow
  {
    Workflow(id, org, workspace, user, question, Queued, now, NO_TELEMETRY, None, [], [])
  }

  function CreateWrites(
    id: Id, question: string, workspace: string, org: string, user: string, clock: seq<Timestamp>): seq<Write>
  {
    [Save(NewWorkflow(id, question, workspace, org, user, Reading(clock, 0))),
     Append(id, Event(Reading(clock, 1), WorkflowCreated, CreatedFor(question)), org, workspace)]
  }

  function Transitioned(w: Workflow, status: Status, clock: seq<Timestamp>): Workflow {
    w.(status := status, telemetry := BuildTelemetry(w, status, Reading(clock, 0)))
  }

  function TransitionWrites(w: Workflow, id: Id, status: Status, clock: seq<Timestamp>): seq<Write> {
    var updated := Transitioned(w, status, clock);
    [Save(updated),
     Append(id, Event(Reading(clock, 1), LifecycleTransition, StatusChanged(status)), w.org, w.workspace)]
    + (if updated.telemetry != w.telemetry
       then [Append(id, Event(Reading(clock, 2), TelemetryUpdate, TelemetryUpdated(status)), w.org, w.workspace)]
       else [])
  }

  function Staged(w: Workflow, stage: Stage, names: seq<AgentName>, at: Timestamp): Workflow {
    w.(currentStage := Some(stage), stages := w.stages + [StageProgress(stage, Completed, at)],
       agents := w.agents + Executions(names))
  }

  function HandoffWrites(
    w: Workflow, id: Id, traces: seq<Trace>, clock: seq<Timestamp>, from: nat): (writes: seq<Write>)
    ensures |writes| == |traces|
  {
    seq(|traces|, i requires 0 <= i < |traces| =>
      Append(id, Event(Reading(clock, from + i), AgentHandoff, HandedOff(traces[i].source, traces[i].target)),
             w.org, w.workspace))
  }

  function StageTail(w: Workflow, id: Id, stage: Stage, clock: seq<Timestamp>, from: nat): seq<Write> {
    (if stage == InsightGeneration
     then [Append(id, Event(Reading(clock, from), InvestigationUpdate, InvestigationTriggered), w.org, w.workspace)]
     else [])
    + [Append(id, Event(Reading(clock, from + 1), StageTransition, StageCompleted(stage)), w.org, w.workspace)]
  }

  function StageHead(
    w: Workflow, prior: seq<Trace>, id: Id, stage: Stage, names: seq<AgentName>, traces: seq<Trace>,
    clock: seq<Timestamp>): seq<Write>
  {
    [Save(Staged(w, stage, names, Reading(clock, |traces|))), SaveTraces(id, prior + traces, w.org, w.workspace)]
  }

  function StageWrites(
    w: Workflow, prior: seq<Trace>, id: Id, stage: Stage, names: seq<AgentName>, clock: seq<Timestamp>): seq<Write>
    requires names != []
  {
    var traces := Handoffs(names, w.question, clock);
    StageHead(w, prior, id, stage, names, traces, clock)
    + HandoffWrites(w, id, traces, clock, |traces| + 1)
    + StageTail(w, id, stage, clock, 2 * |traces| + 1)
  }

  datatype Op =
    | Create(id: Id, question: string, workspace: string, org: string, user: string, clock: seq<Timestamp>)
    | Transition(id: Id, status: Status, clock: seq<Timestamp>)
    | CompleteStage(id: Id, stage: Stage, policy: AgentPolicy, clock: seq<Timestamp>)
    | ReadStream(id: Id, clock: seq<Timestamp>)

  /** The writes of one operation, given what it read of its workflow; an unknown id raises before anything
      is written. */
  function WritesFrom(found: Option<Workflow>, prior: seq<Trace>, op: Op): seq<Write> {
    match op
    case Create(id, question, workspace, org, user, clock) => CreateWrites(id, question, workspace, org, user, clock)
    case Transition(id, status, clock) =>
      (match found case None => [] case Some(w) => TransitionWrites(w, id, status, clock))
    case CompleteStage(id, stage, policy, clock) =>
      (match found
       case None => []
       case Some(w) => StageWrites(w, prior, id, stage, AgentNames(stage, policy), clock))
    case ReadStream(_, _) => []
  }

  function Writes(s: Stores, op: Op): seq<Write> {
    WritesFrom(GetWorkflow(s, op.id), ListOf(s.traces, op.id), op)
  }

  /** `get_stream_updates`: the answer and the cache it leaves behind. */
  function ReadUpdates(s: State, id: Id, clock: seq<Timestamp>): (Option<seq<Update>>, State) {
    match ViewOf(s.stores, id)
    case None => (None, s)
    case Some(v) =>
      if id in s.cache && s.cache[id].key == KeyOf(v) then (Some(s.cache[id].updates), s)
      else
        var updates := StreamUpdates(v, clock);
        (Some(updates), s.(cache := s.cache[id := CacheEntry(KeyOf(v), updates)]))
  }

  function Apply(s: State, op: Op): State {
    if op.ReadStream? then ReadUpdates(s, op.id, op.clock).1 else PerformAll(s, Writes(s.stores, op))
  }

  /** Workflow ids are fresh random ids, never the alias. */
  predicate Legal(s: State, op: Op) {
    op.Create? ==> op.id !in s.stores.workflows && op.id != LATEST
  }

  ghost predicate LegalRun(s: State, ops: seq<Op>)
    decreases |ops|
  {
    ops == [] || (Legal(s, ops[0]) && LegalRun(Apply(s, ops[0]), ops[1..]))
  }

  function Run(s: State, ops: seq<Op>): State
    decreases |ops|
  {
    if ops == [] then s else Run(Apply(s, ops[0]), ops[1..])
  }

  // ---------------------------------------------------------------- the service object

  class OrchestrationService {
    var workflows: map<Id, Workflow>
    var latest: Option<Id>
    var telemetry: map<Id, Telemetry>
    var agentExecutions: map<Id, seq<Agent>>
    var agentTraces: map<Id, seq<Trace>>
    var events: map<Id, seq<Event>>
    var streamCache: map<Id, CacheEntry>
    const policy: AgentPolicy

    function Current(): State
      reads this
    {
      State(Stores(workflows, latest, telemetry, agentExecutions, agentTraces, events), streamCache)
    }

    constructor (policy: AgentPolicy := DEFAULT_POLICY)
      ensures Current() == EMPTY && this.policy == policy
    {
      workflows, latest, telemetry, agentExecutions, agentTraces, events := map[], None, map[], map[], map[], map[];
      streamCache := map[];
      this.policy := policy;
    }

    method SaveWorkflow(w: Workflow)
      modifies this
      ensures Current() == Perform(old(Current()), Save(w))
    {
      streamCache := streamCache - {w.id};
      workflows := workflows[w.id := w];
      latest := Some(w.id);
      telemetry := telemetry[w.id := w.telemetry];
      agentExecutions := agentExecutions[w.id := w.agents];
    }

    method AppendEvent(id: Id, event: Event, org: string, workspace: string)
      modifies this
      ensures Current() == Perform(old(Current()), Append(id, event, org, workspace))
    {
      streamCache := streamCache - {id};
      events := events[id := ListOf(events, id) + [event]];
    }

    method CreateWorkflow(
      id: Id, question: string, workspace: string, org: string, user: string, clock: seq<Timestamp>)
      returns (w: Workflow)
      modifies this
      ensures Current() == Apply(old(Current()), Create(id, question, workspace, org, user, clock))
      ensures w.id == id && w.status == Queued && w.telemetry == NO_TELEMETRY && w.stages == [] && w.agents == []
    {
      ghost var before := Current();
      w := Workflow(id, org, workspace, user, question, Queued, Reading(clock, 0), NO_TELEMETRY, None, [], []);
      SaveWorkflow(w);
      var event := Event(Reading(clock, 1), WorkflowCreated, CreatedFor(question));
      AppendEvent(id, event, org, workspace);
      PerformTwo(before, Save(w), Append(id, event, org, workspace));
    }

    /** `None` stands for the ValueError raised on an unknown id. */
    method TransitionWorkflow(id: Id, status: Status, clock: seq<Timestamp>) returns (result: Option<Workflow>)
      modifies this
      ensures Current() == Apply(old(Current()), Transition(id, status, clock))
      ensures result == match old(GetWorkflow(Current().stores, id))
                        case None => None
                        case Some(w) => Some(Transitioned(w, status, clock))
    {
      ghost var before := Current();
      var found := GetWorkflow(Current().stores, id);
      if found.None? { return None; }
      var w := found.value;
      var updated := w.(status := status, telemetry := BuildTelemetry(w, status, Reading(clock, 0)));
      SaveWorkflow(updated);
      var changed := Event(Reading(clock, 1), LifecycleTransition, StatusChanged(status));
      AppendEvent(id, changed, w.org, w.workspace);
      if updated.telemetry != w.telemetry {
        AppendEvent(id, Event(Reading(clock, 2), TelemetryUpdate, TelemetryUpdated(status)), w.org, w.workspace);
      }
      TransitionSteps(before, w, id, status, clock);
      return Some(updated);
    }

    /** Saves the record with the stage and its agents added, then the longer list of hand-offs. */
    method SaveStage(
      w: Workflow, id: Id, stage: Stage, names: seq<AgentName>, handoffs: seq<Trace>, clock: seq<Timestamp>)
      returns (updated: Workflow)
      modifies this
      ensures Current() == PerformAll(old(Current()),
                             StageHead(w, old(ListOf(agentTraces, id)), id, stage, names, handoffs, clock))
      ensures updated == Staged(w, stage, names, Reading(clock, |handoffs|))
    {
      ghost var before := Current();
      var traces := ListOf(agentTraces, id) + handoffs;
      updated := w.(currentStage := Some(stage),
                    stages := w.stages + [StageProgress(stage, Completed, Reading(clock, |handoffs|))],
                    agents := w.agents + Executions(names));
      SaveWorkflow(updated);
      agentTraces := agentTraces[id := traces];
      PerformTwo(before, Save(updated), SaveTraces(id, traces, w.org, w.workspace));
    }

    /** One event per hand-off, in order. */
    method RecordHandoffs(w: Workflow, id: Id, handoffs: seq<Trace>, clock: seq<Timestamp>, from: nat)
      modifies this
      ensures Current() == PerformAll(old(Current()), HandoffWrites(w, id, handoffs, clock, from))
    {
      ghost var before := Current();
      ghost var planned := HandoffWrites(w, id, handoffs, clock, from);
      hide Perform;
      for i := 0 to |handoffs|
        invariant Current() == PerformAll(before, planned[..i])
      {
        AppendEvent(id, Event(Reading(clock, from + i), AgentHandoff,
                              HandedOff(handoffs[i].source, handoffs[i].target)), w.org, w.workspace);
        PerformSnoc(before, planned[..i], planned[i]);
        assert planned[..i + 1] == planned[..i] + [planned[i]];
      }
      assert planned[..|handoffs|] == planned;
    }

    /** The closing events of a stage: the investigation notice of the last stage, then the transition. */
    method RecordStage(w: Workflow, id: Id, stage: Stage, clock: seq<Timestamp>, from: nat)
      modifies this
      ensures Current() == PerformAll(old(Current()), StageTail(w, id, stage, clock, from))
    {
      ghost var before := Current();
      var completed := Event(Reading(clock, from + 1), StageTransition, StageCompleted(stage));
      if stage == InsightGeneration {
        var triggered := Event(Reading(clock, from), InvestigationUpdate, InvestigationTriggered);
        AppendEvent(id, triggered, w.org, w.workspace);
        PerformTwo(before, Append(id, triggered, w.org, w.workspace), Append(id, completed, w.org, w.workspace));
      }
      AppendEvent(id, completed, w.org, w.workspace);
      PerformSnoc(before, [], Append(id, completed, w.org, w.workspace));
    }

    method TransitionStage(id: Id, stage: Stage, clock: seq<Timestamp>) returns (result: Option<Workflow>)
      modifies this
      ensures Current() == Apply(old(Current()), CompleteStage(id, stage, policy, clock))
      ensures result == match old(GetWorkflow(Current().stores, id))
                        case None => None
                        case Some(w) =>
                          var names := AgentNames(stage, policy);
                          Some(Staged(w, stage, names, Reading(clock, |names| - 1)))
    {
      hide PerformAll, StageHead, HandoffWrites, StageTail, Handoffs, AgentNames, GetWorkflow;
      ghost var before := Current();
      var found := GetWorkflow(Current().stores, id);
      if found.None? {
        UnknownApply(before, CompleteStage(id, stage, policy, clock));
        return None;
      }
      hide Apply;
      var w := found.value;
      var names := AgentNames(stage, policy);
      var handoffs := Handoffs(names, w.question, clock);
      var updated := SaveStage(w, id, stage, names, handoffs, clock);
      RecordHandoffs(w, id, handoffs, clock, |handoffs| + 1);
      RecordStage(w, id, stage, clock, 2 * |handoffs| + 1);
      StageSteps(before, w, id, stage, policy, clock);
      return Some(updated);
    }

    method GetStreamUpdates(id: Id, clock: seq<Timestamp>) returns (result: Option<seq<Update>>)
      modifies this`streamCache
      ensures (result, Current()) == ReadUpdates(old(Current()), id, clock)
    {
      var found := ViewOf(Current().stores, id);
      if found.None? { return None; }
      var v := found.value;
      var key := KeyOf(v);
      if id in streamCache && streamCache[id].key == key { return Some(streamCache[id].updates); }
      var updates := EventUpdates(v.events);
      updates := updates + UpdatesOfKind(v.events, EventType.LifecycleTransition, LifecycleUpdate);
      updates := updates + UpdatesOfKind(v.events, EventType.InvestigationUpdate, InvestigationStreamUpdate);
      updates := updates + StageUpdates(v.workflow.stages);
      updates := updates + AgentUpdates(v.workflow.agents, v.workflow.stages, clock);
      updates := updates + TelemetryUpdates(v.telemetry);
      var sorted := Sorting.SortBy(UpdateKey, updates);
      streamCache := streamCache[id := CacheEntry(key, sorted)];
      return Some(sorted);
    }

    /** `run_workflow`: start, the six stages in order, complete. The call of number `raising`, if there is one, raises
        before it writes, and the handler records the failure. An unknown id raises in the first call and again in the
        handler: nothing is written and `None` comes back. */
    method RunWorkflow(id: Id, clocks: seq<seq<Timestamp>>, raising: nat, failClock: seq<Timestamp>)
      returns (result: Option<Workflow>)
      requires |clocks| == 8
      modifies this
      ensures Current() == Run(old(Current()), RunUntil(id, policy, clocks, raising, failClock))
      ensures result.None? <==> old(GetWorkflow(Current().stores, id)).None?
      ensures result.Some? ==> result.value.status == if raising < 8 then Failed else Completed
    {
      hide Apply, GetWorkflow;
      ghost var before := Current();
      ghost var ops := RunOps(id, policy, clocks);
      if GetWorkflow(Current().stores, id).None? {
        UnknownRun(before, id, RunUntil(id, policy, clocks, raising, failClock));
        UnknownApply(before, ops[0]);
        UnknownApply(before, Transition(id, Failed, failClock));
      }
      if raising == 0 {
        result := FailRun(id, ops, 0, failClock, before);
        return;
      }
      var step := TransitionWorkflow(id, Running, clocks[0]);
      if step.None? {
        result := TransitionWorkflow(id, Failed, failClock);
        return;
      }
      RunSnoc(before, [], ops[0]);
      assert ops[..1] == [] + [ops[0]];
      KnownStays(before, id, ops[0]);
      for i := 0 to |WORKFLOW_STAGES|
        invariant Current() == Run(before, ops[..i + 1]) && raising > i
        invariant GetWorkflow(Current().stores, id).Some?
      {
        if raising == i + 1 {
          result := FailRun(id, ops, i + 1, failClock, before);
          return;
        }
        KnownStays(Current(), id, ops[i + 1]);
        step := TransitionStage(id, WORKFLOW_STAGES[i], clocks[i + 1]);
        RunSnoc(before, ops[..i + 1], ops[i + 1]);
        assert ops[..i + 2] == ops[..i + 1] + [ops[i + 1]];
      }
      if raising == 7 {
        result := FailRun(id, ops, 7, failClock, before);
        return;
      }
      result := TransitionWorkflow(id, Completed, clocks[7]);
      RunSnoc(before, ops[..7], ops[7]);
      assert ops == ops[..7] + [ops[7]];
      assert ops[..7] == ops[..6 + 1];
    }

    /** The handler: `fail_workflow` after the first `n` calls. */
    method FailRun(id: Id, ghost ops: seq<Op>, n: nat, clock: seq<Timestamp>, ghost before: State)
      returns (result: Option<Workflow>)
      requires n <= |ops| && Current() == Run(before, ops[..n])
      modifies this
      ensures Current() == Run(before, ops[..n] + [Transition(id, Failed, clock)])
      ensures result.None? <==> old(GetWorkflow(Current().stores, id)).None?
      ensures result.Some? ==> result.value.status == Failed
    {
      hide Apply, Run;
      RunSnoc(before, ops[..n], Transition(id, Failed, clock));
      result := TransitionWorkflow(id, Failed, clock);
    }
  }

  /** The calls of a run: all eight, or those before the one that raises and then the failure. */
  function RunUntil(
    id: Id, policy: AgentPolicy, clocks: seq<seq<Timestamp>>, raising: nat, failClock: seq<Timestamp>): seq<Op>
    requires |clocks| == 8
  {
    var ops := RunOps(id, policy, clocks);
    if raising < 8 then ops[..raising] + [Transition(id, Failed, failClock)] else ops
  }

  function RunOps(id: Id, policy: AgentPolicy, clocks: seq<seq<Timestamp>>): (ops: seq<Op>)
    requires |clocks| == 8
    ensures |ops| == 8
  {
    [Transition(id, Running, clocks[0])]
    + seq(6, i requires 0 <= i < 6 => CompleteStage(id, WORKFLOW_STAGES[i], policy, clocks[i + 1]))
    + [Transition(id, Completed, clocks[7])]
  }

  lemma {:induction false} PerformSnoc(s: State, writes: seq<Write>, last: Write)
    ensures PerformAll(s, writes + [last]) == Perform(PerformAll(s, writes), last)
  {
    assert (writes + [last])[..|writes|] == writes;
  }

  lemma {:induction false} PerformConcat(s: State, first: seq<Write>, second: seq<Write>)
    ensures PerformAll(s, first + second) == PerformAll(PerformAll(s, first), second)
  {
    if second == [] {
      assert first + [] == first;
    } else {
      var n := |second| - 1;
      hide Perform, PerformAll;
      PerformConcat(s, first, second[..n]);
      PerformSnoc(s, first + second[..n], second[n]);
      PerformSnoc(PerformAll(s, first), second[..n], second[n]);
      assert second == second[..n] + [second[n]];
      assert first + second == first + second[..n] + [second[n]];
    }
  }

  lemma {:induction false} PerformTwo(s: State, first: Write, second: Write)
    ensures PerformAll(s, [first, second]) == Perform(Perform(s, first), second)
  {
    PerformSnoc(s, [first], second);
    PerformSnoc(s, [], first);
    assert [first, second] == [first] + [second];
    assert [first] == [] + [first];
  }

  lemma {:induction false} TransitionSteps(s: State, w: Workflow, id: Id, status: Status, clock: seq<Timestamp>)
    ensures var updated := Transitioned(w, status, clock);
      var changed := Event(Reading(clock, 1), LifecycleTransition, StatusChanged(status));
      var measured := Event(Reading(clock, 2), TelemetryUpdate, TelemetryUpdated(status));
      var told := Perform(Perform(s, Save(updated)), Append(id, changed, w.org, w.workspace));
      PerformAll(s, TransitionWrites(w, id, status, clock))
        == if updated.telemetry != w.telemetry then Perform(told, Append(id, measured, w.org, w.workspace)) else told
  {
    var all := TransitionWrites(w, id, status, clock);
    PerformTwo(s, all[0], all[1]);
    if |all| == 3 {
      PerformSnoc(s, [all[0], all[1]], all[2]);
      assert all == [all[0], all[1]] + [all[2]];
    } else {
      assert all == [all[0], all[1]];
    }
  }

  lemma {:induction false} PerformParts(s: State, a: seq<Write>, b: seq<Write>, c: seq<Write>)
    ensures PerformAll(s, a + b + c) == PerformAll(PerformAll(PerformAll(s, a), b), c)
  {
    PerformConcat(s, a, b);
    PerformConcat(s, a + b, c);
  }

  /** An operation whose writes come in three parts is the three parts performed in turn. */
  lemma {:induction false} ApplyParts(s: State, op: Op, a: seq<Write>, b: seq<Write>, c: seq<Write>)
    requires !op.ReadStream? && Writes(s.stores, op) == a + b + c
    ensures Apply(s, op) == PerformAll(PerformAll(PerformAll(s, a), b), c)
  {
    PerformParts(s, a, b, c);
  }

  lemma {:induction false} StageSteps(
    s: State, w: Workflow, id: Id, stage: Stage, policy: AgentPolicy, clock: seq<Timestamp>)
    requires GetWorkflow(s.stores, id) == Some(w)
    ensures var names := AgentNames(stage, policy);
      var handoffs := Handoffs(names, w.question, clock);
      Apply(s, CompleteStage(id, stage, policy, clock))
        == PerformAll(PerformAll(PerformAll(s,
             StageHead(w, ListOf(s.stores.traces, id), id, stage, names, handoffs, clock)),
             HandoffWrites(w, id, handoffs, clock, |handoffs| + 1)),
             StageTail(w, id, stage, clock, 2 * |handoffs| + 1))
  {
    hide PerformAll, StageHead, HandoffWrites, StageTail, Handoffs, AgentNames, GetWorkflow;
    var names := AgentNames(stage, policy);
    var handoffs := Handoffs(names, w.question, clock);
    ApplyParts(s, CompleteStage(id, stage, policy, clock),
               StageHead(w, ListOf(s.stores.traces, id), id, stage, names, handoffs, clock),
               HandoffWrites(w, id, handoffs, clock, |handoffs| + 1),
               StageTail(w, id, stage, clock, 2 * |handoffs| + 1));
  }

  lemma {:induction false} RunSnoc(s: State, ops: seq<Op>, last: Op)
    ensures Run(s, ops + [last]) == Apply(Run(s, ops), last)
    decreases |ops|
  {
    if ops == [] {
      assert [] + [last] == [last];
      assert [last][1..] == [];
    } else {
      RunSnoc(Apply(s, ops[0]), ops[1..], last);
      assert (ops + [last])[1..] == ops[1..] + [last];
    }
  }

  lemma {:induction false} WritesKeepKnown(s: State, id: Id, writes: seq<Write>)
    requires GetWorkflow(s.stores, id).Some?
    ensures GetWorkflow(PerformAll(s, writes).stores, id).Some?
  {
    if writes != [] {
      WritesKeepKnown(s, id, writes[..|writes| - 1]);
    }
  }

  /** No operation forgets a workflow. */
  lemma KnownStays(s: State, id: Id, op: Op)
    requires GetWorkflow(s.stores, id).Some?
    ensures GetWorkflow(Apply(s, op).stores, id).Some?
  {
    if !op.ReadStream? {
      WritesKeepKnown(s, id, Writes(s.stores, op));
    }
  }

  lemma UnknownApply(s: State, op: Op)
    requires GetWorkflow(s.stores, op.id).None? && !op.Create?
    ensures Apply(s, op) == s
  {
  }

  /** Operations on an id nobody created change nothing at all. */
  lemma {:induction false} UnknownRun(s: State, id: Id, ops: seq<Op>)
    requires GetWorkflow(s.stores, id).None?
    requires forall i :: 0 <= i < |ops| ==> ops[i].id == id && !ops[i].Create?
    ensures Run(s, ops) == s
    decreases |ops|
  {
    if ops != [] {
      UnknownApply(s, ops[0]);
      UnknownRun(s, id, ops[1..]);
    }
  }
}
