/** What a run of writes does to each store, in closed form. */
module Effects {
  import opened Wrappers
  import opened Models
  import opened Stores
  import opened Service

  /** The events a list of writes appends for one id. */
  function EventsIn(writes: seq<Write>, id: Id): seq<Event> {
    if writes == [] then []
    else
      var last := writes[|writes| - 1];
      EventsIn(writes[..|writes| - 1], id) + (if last.Append? && last.id == id then [last.event] else [])
  }

  lemma OneAppended(s: State, write: Write, id: Id)
    ensures ListOf(Perform(s, write).stores.events, id)
         == ListOf(s.stores.events, id) + (if write.Append? && write.id == id then [write.event] else [])
  {
  }

  lemma {:induction false} EventsAppended(s: State, writes: seq<Write>, id: Id)
    ensures ListOf(PerformAll(s, writes).stores.events, id) == ListOf(s.stores.events, id) + EventsIn(writes, id)
  {
    if writes != [] {
      EventsAppended(s, writes[..|writes| - 1], id);
      OneAppended(PerformAll(s, writes[..|writes| - 1]), writes[|writes| - 1], id);
      hide Perform, ListOf;
    }
  }

  lemma {:induction false} EventsInConcat(a: seq<Write>, b: seq<Write>, id: Id)
    ensures EventsIn(a + b, id) == EventsIn(a, id) + EventsIn(b, id)
  {
    if b == [] {
      assert a + [] == a;
    } else {
      var n := |b| - 1;
      EventsInConcat(a, b[..n], id);
      assert (a + b)[..|a + b| - 1] == a + b[..n];
    }
  }

  /** Writes that save nothing leave the records, telemetry and agents alone. */
  lemma {:induction false} OnlySavesChangeRecords(s: State, writes: seq<Write>)
    requires forall i :: 0 <= i < |writes| ==> !writes[i].Save?
    ensures var t := PerformAll(s, writes).stores;
      t.workflows == s.stores.workflows && t.latest == s.stores.latest
      && t.telemetry == s.stores.telemetry && t.agents == s.stores.agents
  {
    if writes != [] {
      OnlySavesChangeRecords(s, writes[..|writes| - 1]);
    }
  }

  lemma {:induction false} TracesKept(s: State, writes: seq<Write>, id: Id)
    requires forall i :: 0 <= i < |writes| ==> !(writes[i].SaveTraces? && writes[i].id == id)
    ensures ListOf(PerformAll(s, writes).stores.traces, id) == ListOf(s.stores.traces, id)
  {
    if writes != [] {
      TracesKept(s, writes[..|writes| - 1], id);
    }
  }

  /** Every operation that writes saves one record first and nothing after. */
  ghost predicate SavesFirst(writes: seq<Write>, w: Workflow) {
    && writes != [] && writes[0] == Save(w)
    && forall i :: 1 <= i < |writes| ==> !writes[i].Save?
  }

  lemma {:induction false} SavedFirst(s: State, writes: seq<Write>, w: Workflow)
    requires SavesFirst(writes, w)
    ensures var t := PerformAll(s, writes).stores;
      t.workflows == s.stores.workflows[w.id := w] && t.latest == Some(w.id)
      && t.telemetry == s.stores.telemetry[w.id := w.telemetry] && t.agents == s.stores.agents[w.id := w.agents]
  {
    PerformConcat(s, [writes[0]], writes[1..]);
    assert writes == [writes[0]] + writes[1..];
    PerformSnoc(s, [], writes[0]);
    assert [] + [writes[0]] == [writes[0]];
    OnlySavesChangeRecords(Perform(s, writes[0]), writes[1..]);
  }

  function TransitionEvents(w: Workflow, status: Status, clock: seq<Timestamp>): seq<Event> {
    [Event(Reading(clock, 1), LifecycleTransition, StatusChanged(status))]
    + (if Transitioned(w, status, clock).telemetry != w.telemetry
       then [Event(Reading(clock, 2), TelemetryUpdate, TelemetryUpdated(status))] else [])
  }

  function HandoffEvents(traces: seq<Trace>, clock: seq<Timestamp>, from: nat): (events: seq<Event>)
    ensures |events| == |traces|
  {
    seq(|traces|, i requires 0 <= i < |traces| =>
      Event(Reading(clock, from + i), AgentHandoff, HandedOff(traces[i].source, traces[i].target)))
  }

  function ClosingEvents(stage: Stage, clock: seq<Timestamp>, from: nat): seq<Event> {
    (if stage == InsightGeneration
     then [Event(Reading(clock, from), InvestigationUpdate, InvestigationTriggered)] else [])
    + [Event(Reading(clock, from + 1), StageTransition, StageCompleted(stage))]
  }

  function StageEvents(stage: Stage, traces: seq<Trace>, clock: seq<Timestamp>): seq<Event> {
    HandoffEvents(traces, clock, |traces| + 1) + ClosingEvents(stage, clock, 2 * |traces| + 1)
  }

  lemma {:induction false} EventsInSnoc(writes: seq<Write>, last: Write, id: Id)
    ensures EventsIn(writes + [last], id)
         == EventsIn(writes, id) + (if last.Append? && last.id == id then [last.event] else [])
  {
    assert (writes + [last])[..|writes|] == writes;
  }

  lemma HandoffStep(w: Workflow, id: Id, traces: seq<Trace>, clock: seq<Timestamp>, from: nat, n: nat)
    returns (event: Event)
    requires n < |traces|
    ensures var all, told := HandoffWrites(w, id, traces, clock, from), HandoffEvents(traces, clock, from);
      && all[..n + 1] == all[..n] + [Append(id, event, w.org, w.workspace)]
      && told[..n + 1] == told[..n] + [event]
  {
    event := HandoffEvents(traces, clock, from)[n];
  }

  lemma {:induction false} HandoffsWrite(
    w: Workflow, id: Id, traces: seq<Trace>, clock: seq<Timestamp>, from: nat, n: nat, other: Id)
    requires n <= |traces|
    ensures EventsIn(HandoffWrites(w, id, traces, clock, from)[..n], other)
         == if other == id then HandoffEvents(traces, clock, from)[..n] else []
  {
    hide HandoffWrites, HandoffEvents;
    if n > 0 {
      HandoffsWrite(w, id, traces, clock, from, n - 1, other);
      var event := HandoffStep(w, id, traces, clock, from, n - 1);
      hide EventsIn;
      EventsInSnoc(HandoffWrites(w, id, traces, clock, from)[..n - 1], Append(id, event, w.org, w.workspace), other);
    }
  }

  lemma {:induction false} TransitionEventsWritten(
    w: Workflow, id: Id, status: Status, clock: seq<Timestamp>, other: Id)
    ensures EventsIn(TransitionWrites(w, id, status, clock), other)
         == if other == id then TransitionEvents(w, status, clock) else []
    ensures SavesFirst(TransitionWrites(w, id, status, clock), Transitioned(w, status, clock))
  {
    var all := TransitionWrites(w, id, status, clock);
    EventsInConcat([all[0]], [all[1]], other);
    assert [all[0]] + [all[1]] == [all[0], all[1]];
    EventsInConcat([all[0], all[1]], all[2..], other);
    assert all == [all[0], all[1]] + all[2..];
    if |all| == 3 {
      assert all[2..] == [all[2]];
    }
  }

  lemma {:induction false} HandoffsWritten(
    w: Workflow, id: Id, traces: seq<Trace>, clock: seq<Timestamp>, from: nat, other: Id)
    ensures EventsIn(HandoffWrites(w, id, traces, clock, from), other)
         == if other == id then HandoffEvents(traces, clock, from) else []
  {
    HandoffsWrite(w, id, traces, clock, from, |traces|, other);
    var told := HandoffWrites(w, id, traces, clock, from);
    assert told[..|traces|] == told;
    var told' := HandoffEvents(traces, clock, from);
    assert told'[..|traces|] == told';
  }

  lemma {:induction false} EventsInThree(all: seq<Write>, a: seq<Write>, b: seq<Write>, c: seq<Write>, id: Id)
    requires all == a + b + c
    ensures EventsIn(all, id) == EventsIn(a, id) + EventsIn(b, id) + EventsIn(c, id)
  {
    EventsInConcat(a, b, id);
    EventsInConcat(a + b, c, id);
  }

  lemma {:induction false} HeadWritten(
    w: Workflow, prior: seq<Trace>, id: Id, stage: Stage, names: seq<AgentName>, traces: seq<Trace>,
    clock: seq<Timestamp>, other: Id)
    ensures EventsIn(StageHead(w, prior, id, stage, names, traces, clock), other) == []
  {
    var head := StageHead(w, prior, id, stage, names, traces, clock);
    EventsInConcat([head[0]], [head[1]], other);
    assert head == [head[0]] + [head[1]];
  }

  lemma {:induction false} TailWritten(w: Workflow, id: Id, stage: Stage, clock: seq<Timestamp>, from: nat, other: Id)
    ensures EventsIn(StageTail(w, id, stage, clock, from), other)
         == if other == id then ClosingEvents(stage, clock, from) else []
  {
    var tail := StageTail(w, id, stage, clock, from);
    if stage == InsightGeneration {
      EventsInConcat([tail[0]], [tail[1]], other);
      assert tail == [tail[0]] + [tail[1]];
    }
  }

  lemma {:induction false} StageEventsWritten(
    w: Workflow, prior: seq<Trace>, id: Id, stage: Stage, names: seq<AgentName>, clock: seq<Timestamp>, other: Id)
    requires names != []
    ensures EventsIn(StageWrites(w, prior, id, stage, names, clock), other)
         == if other == id then StageEvents(stage, Handoffs(names, w.question, clock), clock) else []
  {
    hide EventsIn, HandoffWrites, HandoffEvents, StageHead, StageTail, ClosingEvents, Handoffs;
    var traces := Handoffs(names, w.question, clock);
    var told := HandoffWrites(w, id, traces, clock, |traces| + 1);
    var tail := StageTail(w, id, stage, clock, 2 * |traces| + 1);
    EventsInThree(StageWrites(w, prior, id, stage, names, clock),
                  StageHead(w, prior, id, stage, names, traces, clock), told, tail, other);
    HandoffsWritten(w, id, traces, clock, |traces| + 1, other);
    HeadWritten(w, prior, id, stage, names, traces, clock, other);
    TailWritten(w, id, stage, clock, 2 * |traces| + 1, other);
  }

  lemma StageSavesFirst(
    w: Workflow, prior: seq<Trace>, id: Id, stage: Stage, names: seq<AgentName>, clock: seq<Timestamp>)
    requires names != []
    ensures SavesFirst(StageWrites(w, prior, id, stage, names, clock),
                       Staged(w, stage, names, Reading(clock, |names| - 1)))
  {
  }

  lemma {:induction false} StagePartsTraces(
    s: State, w: Workflow, id: Id, stage: Stage, names: seq<AgentName>, traces: seq<Trace>, clock: seq<Timestamp>,
    rest: seq<Write>, writes: seq<Write>, other: Id)
    requires forall i :: 0 <= i < |rest| ==> rest[i].Append?
    requires writes == StageHead(w, ListOf(s.stores.traces, id), id, stage, names, traces, clock) + rest
    ensures ListOf(PerformAll(s, writes).stores.traces, other)
         == if other == id then ListOf(s.stores.traces, id) + traces else ListOf(s.stores.traces, other)
  {
    var head := StageHead(w, ListOf(s.stores.traces, id), id, stage, names, traces, clock);
    PerformConcat(s, head, rest);
    TracesKept(PerformAll(s, head), rest, other);
    PerformTwo(s, head[0], head[1]);
  }

  /** A completed stage replaces the stored hand-offs by the old list with the new ones after it. */
  lemma {:induction false} StageTraces(
    s: State, w: Workflow, id: Id, stage: Stage, names: seq<AgentName>, clock: seq<Timestamp>, other: Id)
    requires names != []
    ensures ListOf(PerformAll(s, StageWrites(w, ListOf(s.stores.traces, id), id, stage, names, clock))
                     .stores.traces, other)
         == if other == id then ListOf(s.stores.traces, id) + Handoffs(names, w.question, clock)
            else ListOf(s.stores.traces, other)
  {
    var traces := Handoffs(names, w.question, clock);
    var told := HandoffWrites(w, id, traces, clock, |traces| + 1);
    var tail := StageTail(w, id, stage, clock, 2 * |traces| + 1);
    var writes := StageWrites(w, ListOf(s.stores.traces, id), id, stage, names, clock);
    StagePartsTraces(s, w, id, stage, names, traces, clock, told + tail, writes, other);
  }

  /** The record an operation saves for an id, if it saves one. */
  ghost predicate Touches(s: Stores, op: Op, id: Id) {
    match op
    case Create(_, _, _, _, _, _) => op.id == id
    case ReadStream(_, _) => false
    case _ => GetWorkflow(s, op.id).Some? && GetWorkflow(s, op.id).value.id == id
  }

  ghost predicate SameFor(s: Stores, t: Stores, id: Id) {
    && ListOf(t.events, id) == ListOf(s.events, id)
    && ListOf(t.traces, id) == ListOf(s.traces, id)
    && (id in t.workflows <==> id in s.workflows)
    && (id in s.workflows ==> t.workflows[id] == s.workflows[id])
  }

  lemma {:induction false} OthersKept(s: State, writes: seq<Write>, w: Workflow, id: Id)
    requires SavesFirst(writes, w) && w.id != id
    requires EventsIn(writes, id) == []
    requires ListOf(PerformAll(s, writes).stores.traces, id) == ListOf(s.stores.traces, id)
    ensures SameFor(s.stores, PerformAll(s, writes).stores, id)
  {
    EventsAppended(s, writes, id);
    SavedFirst(s, writes, w);
  }

  lemma CreateOthers(s: State, op: Op, id: Id)
    requires op.Create? && op.id != id
    ensures SameFor(s.stores, Apply(s, op).stores, id)
  {
    hide EventsIn, PerformAll;
    CreateWritten(op, s.stores, id);
    TracesKept(s, Writes(s.stores, op), id);
    OthersKept(s, Writes(s.stores, op), Writes(s.stores, op)[0].workflow, id);
  }

  lemma TransitionOthers(s: State, op: Op, w: Workflow, id: Id)
    requires op.Transition? && GetWorkflow(s.stores, op.id) == Some(w) && w.id == op.id != id
    ensures SameFor(s.stores, Apply(s, op).stores, id)
  {
    hide EventsIn, PerformAll, GetWorkflow;
    TransitionEventsWritten(w, op.id, op.status, op.clock, id);
    TracesKept(s, Writes(s.stores, op), id);
    OthersKept(s, Writes(s.stores, op), Transitioned(w, op.status, op.clock), id);
  }

  lemma StageOthers(s: State, op: Op, w: Workflow, id: Id)
    requires op.CompleteStage? && GetWorkflow(s.stores, op.id) == Some(w) && w.id == op.id != id
    ensures SameFor(s.stores, Apply(s, op).stores, id)
  {
    hide EventsIn, PerformAll, StageWrites, GetWorkflow, AgentNames, Handoffs;
    var names := AgentNames(op.stage, op.policy);
    StageEventsWritten(w, ListOf(s.stores.traces, op.id), op.id, op.stage, names, op.clock, id);
    StageSavesFirst(w, ListOf(s.stores.traces, op.id), op.id, op.stage, names, op.clock);
    StageTraces(s, w, op.id, op.stage, names, op.clock, id);
    OthersKept(s, Writes(s.stores, op), Staged(w, op.stage, names, Reading(op.clock, |names| - 1)), id);
  }

  lemma {:induction false} NothingWritten(s: State)
    ensures PerformAll(s, []) == s
  {
  }

  /** An operation on other workflows leaves this one's record, events and hand-offs alone. */
  lemma UntouchedKept(s: State, op: Op, id: Id)
    requires Consistent(s.stores) && op.id != LATEST
    requires !Touches(s.stores, op, id)
    ensures SameFor(s.stores, Apply(s, op).stores, id)
  {
    GetConcrete(s.stores, op.id);
    NothingWritten(s);
    hide PerformAll, StageWrites, SameFor;
    match op {
      case Create(_, _, _, _, _, _) => CreateOthers(s, op, id);
      case Transition(tid, _, _) =>
        if tid in s.stores.workflows {
          TransitionOthers(s, op, s.stores.workflows[tid], id);
        } else {
          SameAsItself(s, id);
        }
      case CompleteStage(tid, _, _, _) =>
        if tid in s.stores.workflows {
          StageOthers(s, op, s.stores.workflows[tid], id);
        } else {
          SameAsItself(s, id);
        }
      case ReadStream(_, _) => SameAsItself(s, id);
    }
  }

  lemma SameAsItself(s: State, id: Id)
    ensures SameFor(s.stores, s.stores, id)
  {
  }

  lemma {:induction false} CreateWritten(op: Op, s: Stores, other: Id)
    requires op.Create?
    ensures EventsIn(Writes(s, op), other)
         == if other == op.id then [Event(Reading(op.clock, 1), WorkflowCreated, CreatedFor(op.question))] else []
    ensures Writes(s, op)[0].Save? && SavesFirst(Writes(s, op), Writes(s, op)[0].workflow)
  {
    var writes := Writes(s, op);
    EventsInConcat([writes[0]], [writes[1]], other);
    assert writes == [writes[0]] + [writes[1]];
  }

  /** A lifecycle transition in closed form. */
  lemma TransitionEffect(s: State, id: Id, status: Status, clock: seq<Timestamp>)
    requires Consistent(s.stores) && id in s.stores.workflows
    ensures var w := s.stores.workflows[id];
      var t := Apply(s, Transition(id, status, clock)).stores;
      && t.workflows == s.stores.workflows[id := Transitioned(w, status, clock)]
      && ListOf(t.events, id) == ListOf(s.stores.events, id) + TransitionEvents(w, status, clock)
      && ListOf(t.traces, id) == ListOf(s.stores.traces, id)
  {
    var w := s.stores.workflows[id];
    var op := Transition(id, status, clock);
    GetConcrete(s.stores, id);
    hide EventsIn, PerformAll, GetWorkflow;
    EventsAppended(s, Writes(s.stores, op), id);
    TransitionEventsWritten(w, id, status, clock, id);
    SavedFirst(s, Writes(s.stores, op), Transitioned(w, status, clock));
    TracesKept(s, Writes(s.stores, op), id);
  }

  /** A completed stage in closed form. */
  lemma StageEffect(s: State, id: Id, stage: Stage, policy: AgentPolicy, clock: seq<Timestamp>)
    requires Consistent(s.stores) && id in s.stores.workflows
    ensures var w := s.stores.workflows[id];
      var t := Apply(s, CompleteStage(id, stage, policy, clock)).stores;
      var names := AgentNames(stage, policy);
      var traces := Handoffs(names, w.question, clock);
      && t.workflows == s.stores.workflows[id := Staged(w, stage, names, Reading(clock, |traces|))]
      && ListOf(t.events, id) == ListOf(s.stores.events, id) + StageEvents(stage, traces, clock)
      && ListOf(t.traces, id) == ListOf(s.stores.traces, id) + traces
  {
    var w := s.stores.workflows[id];
    var names := AgentNames(stage, policy);
    var op := CompleteStage(id, stage, policy, clock);
    GetConcrete(s.stores, id);
    EventsAppended(s, Writes(s.stores, op), id);
    StageEventsWritten(w, ListOf(s.stores.traces, id), id, stage, names, clock, id);
    StageSavesFirst(w, ListOf(s.stores.traces, id), id, stage, names, clock);
    SavedFirst(s, Writes(s.stores, op), Staged(w, stage, names, Reading(clock, |names| - 1)));
    StageTraces(s, w, id, stage, names, clock, id);
  }

  lemma CreateEffect(s: State, op: Op)
    requires op.Create? && Legal(s, op)
    ensures var t := Apply(s, op).stores;
      && t.workflows == s.stores.workflows[op.id :=
           NewWorkflow(op.id, op.question, op.workspace, op.org, op.user, Reading(op.clock, 0))]
      && ListOf(t.events, op.id) == ListOf(s.stores.events, op.id)
           + [Event(Reading(op.clock, 1), WorkflowCreated, CreatedFor(op.question))]
      && ListOf(t.traces, op.id) == ListOf(s.stores.traces, op.id)
  {
    var writes := Writes(s.stores, op);
    hide EventsIn, PerformAll, GetWorkflow;
    EventsAppended(s, writes, op.id);
    CreateWritten(op, s.stores, op.id);
    SavedFirst(s, writes, writes[0].workflow);
    TracesKept(s, writes, op.id);
  }

  lemma {:induction false} WritesKeepConsistent(s: State, writes: seq<Write>)
    requires Consistent(s.stores)
    requires forall i :: 0 <= i < |writes| && writes[i].Save? ==> writes[i].workflow.id != LATEST
    ensures Consistent(PerformAll(s, writes).stores)
  {
    if writes != [] {
      WritesKeepConsistent(s, writes[..|writes| - 1]);
      WriteKeepsConsistent(PerformAll(s, writes[..|writes| - 1]).stores, writes[|writes| - 1]);
    }
  }

  /** No operation, by concrete id or by alias, ever saves a record under the alias. */
  lemma WritesConcrete(s: State, op: Op)
    requires Consistent(s.stores) && Legal(s, op)
    ensures forall i :: 0 <= i < |Writes(s.stores, op)| && Writes(s.stores, op)[i].Save?
              ==> Writes(s.stores, op)[i].workflow.id != LATEST
  {
    match op {
      case Create(_, _, _, _, _, _) =>
      case ReadStream(_, _) =>
      case Transition(id, status, clock) =>
        if GetWorkflow(s.stores, id).Some? {
          GetKnown(s.stores, id);
          TransitionEventsWritten(GetWorkflow(s.stores, id).value, id, status, clock, id);
        }
      case CompleteStage(id, stage, policy, clock) =>
        if GetWorkflow(s.stores, id).Some? {
          GetKnown(s.stores, id);
          StageSavesFirst(GetWorkflow(s.stores, id).value, ListOf(s.stores.traces, id), id, stage,
                          AgentNames(stage, policy), clock);
        }
    }
  }

  /** Every operation keeps the stores consistent. */
  lemma ApplyKeepsConsistent(s: State, op: Op)
    requires Consistent(s.stores) && Legal(s, op)
    ensures Consistent(Apply(s, op).stores)
  {
    WritesConcrete(s, op);
    WritesKeepConsistent(s, Writes(s.stores, op));
  }
}
