/** Reads of the stream through the alias `workflow:latest` (backend/services.py, backend/storage.py): when the memoised
    answer is current, and when it is not. */
module Alias {
  import opened Wrappers
  import opened Models
  import opened Stores
  import opened Service
  import opened Effects
  import opened StreamCache
  import Fingerprint
  import Sorting

  ghost predicate StaleRead(s: State, id: Id, clock: seq<Timestamp>) {
    && ViewOf(s.stores, id).Some?
    && ReadUpdates(s, id, clock).0.Some?
    && !Computed(ReadUpdates(s, id, clock).0.value, ViewOf(s.stores, id).value)
  }

  // ---------------------------------------------------------------- what every run keeps

  /** Telemetry as the service builds it: nothing is measured before the end, and at the end there is a start, and
      tokens that the cost determines. */
  predicate Timed(t: Telemetry) {
    if t.completedAt.None? then t.latencyMs == None && t.costUsd == 0.0 && t.usage == TokenUsage(0, 0, 0)
    else
      && t.startedAt.Some? && t.usage.completion == 24 && t.usage.total == t.usage.prompt + 24
      && t.costUsd == t.usage.total as real * 0.000002
  }

  ghost predicate AliasSound(s: Stores) {
    && Consistent(s) && LATEST !in s.telemetry
    && forall id :: id in s.workflows ==> Timed(s.workflows[id].telemetry)
  }

  lemma {:induction false} SavesKeepSound(s: State, writes: seq<Write>)
    requires AliasSound(s.stores)
    requires forall i :: 0 <= i < |writes| && writes[i].Save? ==>
      writes[i].workflow.id != LATEST && Timed(writes[i].workflow.telemetry)
    ensures AliasSound(PerformAll(s, writes).stores)
  {
    hide Timed;
    if writes != [] {
      SavesKeepSound(s, writes[..|writes| - 1]);
      WriteKeepsConsistent(PerformAll(s, writes[..|writes| - 1]).stores, writes[|writes| - 1]);
    }
  }

  lemma BuiltTimed(w: Workflow, status: Status, now: Timestamp)
    requires Timed(w.telemetry)
    ensures Timed(BuildTelemetry(w, status, now))
  {
  }

  lemma OperationKeepsSound(s: State, op: Op)
    requires AliasSound(s.stores) && Legal(s, op)
    ensures AliasSound(Apply(s, op).stores)
  {
    if !op.ReadStream? {
      var found := GetWorkflow(s.stores, op.id);
      if found.Some? {
        GetKnown(s.stores, op.id);
        if op.Transition? { BuiltTimed(found.value, op.status, Reading(op.clock, 0)); }
      }
      WritesConcrete(s, op);
      assert Timed(NO_TELEMETRY);
      hide Timed, BuildTelemetry, Consistent;
      SavesKeepSound(s, Writes(s.stores, op));
    }
  }

  lemma {:induction false} RunKeepsSound(s: State, ops: seq<Op>)
    requires AliasSound(s.stores) && LegalRun(s, ops)
    ensures AliasSound(Run(s, ops).stores)
    decreases |ops|
  {
    hide AliasSound, Apply, Legal;
    if ops != [] {
      OperationKeepsSound(s, ops[0]);
      RunKeepsSound(Apply(s, ops[0]), ops[1..]);
    }
  }

  // ---------------------------------------------------------------- when a memoised answer is current

  /** What the stream shows of a view: everything but the status, the question and the tenant. */
  predicate SameStream(v: View, v': View) {
    && v.events == v'.events && v.workflow.stages == v'.workflow.stages && v.workflow.agents == v'.workflow.agents
    && v.telemetry == v'.telemetry
  }

  function StartUpdate(at: Timestamp): Update {
    Update(at, TelemetryStreamUpdate, TelemetryStarted, OfStart(at))
  }

  /** The stream tells when the workflow started. */
  lemma StartShows(v: View, clock: seq<Timestamp>, at: Timestamp)
    ensures StartUpdate(at) in StreamUpdates(v, clock) <==> v.telemetry.startedAt == Some(at)
  {
    var u := StartUpdate(at);
    Sorting.SortMembers(UpdateKey, Unsorted(v, clock));
    NotOfKind(v.events, EventType.LifecycleTransition, LifecycleUpdate, u);
    NotOfKind(v.events, EventType.InvestigationUpdate, InvestigationStreamUpdate, u);
    hide Sorting.SortBy, UpdatesOfKind;
    assert u in Unsorted(v, clock) <==> u in TelemetryUpdates(v.telemetry);
  }

  lemma {:induction false} NotOfKind(events: seq<Event>, source: EventType, kind: UpdateType, u: Update)
    requires u.kind != kind
    ensures u !in UpdatesOfKind(events, source, kind)
  {
    if events != [] { NotOfKind(events[1..], source, kind, u); }
  }

  /** Whatever workflows two views are of, the updates of one can pass for the other's only if both started together. */
  lemma CurrentOnlyIfStarted(v: View, clock: seq<Timestamp>, v': View)
    requires Computed(StreamUpdates(v, clock), v')
    ensures v.telemetry.startedAt == v'.telemetry.startedAt
  {
    hide StreamUpdates;
    var clock' :| StreamUpdates(v, clock) == StreamUpdates(v', clock');
    if v.telemetry.startedAt.Some? {
      StartShows(v, clock, v.telemetry.startedAt.value);
      StartShows(v', clock', v.telemetry.startedAt.value);
    }
    if v'.telemetry.startedAt.Some? {
      StartShows(v, clock, v'.telemetry.startedAt.value);
      StartShows(v', clock', v'.telemetry.startedAt.value);
    }
  }

  /** Equal keys, equal start times and lists that only grew leave nothing else to differ. */
  lemma SameKeySameStream(v: View, v': View)
    requires KeyOf(v) == KeyOf(v') && v.events == v'.events && v.telemetry.startedAt == v'.telemetry.startedAt
    requires Fingerprint.Prefix(v.workflow.stages, v'.workflow.stages)
    requires Fingerprint.Prefix(v.workflow.agents, v'.workflow.agents)
    requires Timed(v.telemetry) && Timed(v'.telemetry)
    ensures SameStream(v, v')
  {
    CostCounts(v.telemetry, v'.telemetry);
  }

  lemma CostCounts(t: Telemetry, t': Telemetry)
    requires Timed(t) && Timed(t') && t.completedAt == t'.completedAt && t.costUsd == t'.costUsd
    ensures t.usage == t'.usage
  {
  }

  lemma SameStreamSameUpdates(v: View, v': View, clock: seq<Timestamp>)
    requires SameStream(v, v')
    ensures StreamUpdates(v, clock) == StreamUpdates(v', clock)
  {
  }

  /** Through the alias one sees the record saved last, with the events appended under the alias itself. */
  lemma AliasView(s: Stores)
    requires AliasSound(s)
    ensures ViewOf(s, LATEST) == match s.latest
      case None => None
      case Some(a) => Some(View(s.workflows[a], ListOf(s.events, LATEST), s.workflows[a].telemetry))
  {
  }

  /** Operations on concrete ids, one after the other. */
  lemma {:induction false} RunLeavesAlias(s: State, ops: seq<Op>)
    requires AliasSound(s.stores) && LegalRun(s, ops) && forall i :: 0 <= i < |ops| ==> ops[i].id != LATEST
    ensures var t := Run(s, ops);
      && ListOf(t.stores.events, LATEST) == ListOf(s.stores.events, LATEST)
      && (LATEST in t.cache <==> LATEST in s.cache) && (LATEST in s.cache ==> t.cache[LATEST] == s.cache[LATEST])
    decreases |ops|
  {
    hide Apply, Legal, Timed, ListOf, Consistent;
    if ops != [] {
      OperationKeepsSound(s, ops[0]);
      NoAlias(s, ops[0]);
      RunLeavesAlias(Apply(s, ops[0]), ops[1..]);
    }
  }

  // ---------------------------------------------------------------- restarts

  predicate Restarts(op: Op, id: Id) {
    op.Transition? && op.id == id && op.status == Running
  }

  /** A start time once set is kept, and one that is set late comes with an end. */
  predicate StartKept(t: Telemetry, t': Telemetry) {
    && (t'.startedAt == t.startedAt || (t.startedAt.None? && t'.completedAt.Some?))
    && (t.completedAt.Some? ==> t'.completedAt.Some?)
  }

  lemma OperationKeepsStart(s: State, op: Op, id: Id)
    requires AliasSound(s.stores) && Legal(s, op) && op.id != LATEST && id in s.stores.workflows && !Restarts(op, id)
    ensures var t := Apply(s, op).stores;
      id in t.workflows && StartKept(s.stores.workflows[id].telemetry, t.workflows[id].telemetry)
  {
    hide Apply, Writes, AgentNames;
    GetConcrete(s.stores, op.id);
    if Touches(s.stores, op, id) {
      match op {
        case Transition(_, status, clock) => TransitionEffect(s, id, status, clock);
        case CompleteStage(_, stage, policy, clock) => StageEffect(s, id, stage, policy, clock);
      }
    } else {
      UntouchedKept(s, op, id);
    }
  }

  lemma {:induction false} RunKeepsStart(s: State, ops: seq<Op>, id: Id)
    requires AliasSound(s.stores) && LegalRun(s, ops) && id in s.stores.workflows
    requires forall i :: 0 <= i < |ops| ==> ops[i].id != LATEST && !Restarts(ops[i], id)
    ensures var t := Run(s, ops).stores;
      id in t.workflows && StartKept(s.stores.workflows[id].telemetry, t.workflows[id].telemetry)
    decreases |ops|
  {
    hide Apply, Legal, AliasSound;
    if ops != [] {
      OperationKeepsSound(s, ops[0]);
      OperationKeepsStart(s, ops[0], id);
      RunKeepsStart(Apply(s, ops[0]), ops[1..], id);
    }
  }

  // ---------------------------------------------------------------- the exact condition

  /** The two views of one workflow, some operations apart, that the alias shows. */
  lemma {:induction false} ViewsApart(s: State, ops: seq<Op>, a: Id)
    requires AliasSound(s.stores) && LegalRun(s, ops) && forall i :: 0 <= i < |ops| ==> ops[i].id != LATEST
    requires s.stores.latest == Some(a) == Run(s, ops).stores.latest
    ensures ViewOf(s.stores, LATEST).Some? && ViewOf(Run(s, ops).stores, LATEST).Some?
    ensures var v, v' := ViewOf(s.stores, LATEST).value, ViewOf(Run(s, ops).stores, LATEST).value;
      && v.events == v'.events && Timed(v.telemetry) && Timed(v'.telemetry)
      && Fingerprint.Prefix(v.workflow.stages, v'.workflow.stages)
      && Fingerprint.Prefix(v.workflow.agents, v'.workflow.agents)
      && ((forall i :: 0 <= i < |ops| ==> !Restarts(ops[i], a)) ==> StartKept(v.telemetry, v'.telemetry))
  {
    hide Run, LegalRun, Timed, ViewOf, ListOf, Fingerprint.Prefix, StartKept, Restarts;
    var t := Run(s, ops);
    assert a in s.stores.workflows;
    RunKeepsSound(s, ops);
    AliasView(s.stores);
    AliasView(t.stores);
    RunLeavesAlias(s, ops);
    Fingerprint.RunForward(s, ops, a);
    Fingerprint.ViewConcrete(s.stores, a);
    Fingerprint.ViewConcrete(t.stores, a);
    if forall i :: 0 <= i < |ops| ==> !Restarts(ops[i], a) { RunKeepsStart(s, ops, a); }
  }

  /** The slot of the alias holds the current updates. */
  ghost predicate SlotFresh(s: State) {
    LATEST in s.cache && ViewOf(s.stores, LATEST).Some? && Fresh(s.cache[LATEST], ViewOf(s.stores, LATEST).value)
  }

  /** A read through the alias, when its slot was current some operations ago and the workflow saved last is still the
      same, is current exactly if the key has changed or the workflow has not been started anew. */
  lemma {:induction false} SlotServes(s: State, ops: seq<Op>, a: Id, clock: seq<Timestamp>)
    requires AliasSound(s.stores) && SlotFresh(s) && LegalRun(s, ops)
    requires forall i :: 0 <= i < |ops| ==> ops[i].id != LATEST
    requires s.stores.latest == Some(a) == Run(s, ops).stores.latest
    ensures ViewOf(s.stores, LATEST).Some? && ViewOf(Run(s, ops).stores, LATEST).Some?
    ensures var v, v' := ViewOf(s.stores, LATEST).value, ViewOf(Run(s, ops).stores, LATEST).value;
      && (!StaleRead(Run(s, ops), LATEST, clock)
          <==> KeyOf(v) != KeyOf(v') || v.telemetry.startedAt == v'.telemetry.startedAt)
      && ((forall i :: 0 <= i < |ops| ==> !Restarts(ops[i], a)) ==> !StaleRead(Run(s, ops), LATEST, clock))
  {
    hide Run, LegalRun, Timed, ViewOf, KeyOf, StreamUpdates, Restarts, AliasSound;
    ViewsApart(s, ops, a);
    RunLeavesAlias(s, ops);
    var v, t := ViewOf(s.stores, LATEST).value, Run(s, ops);
    var v' := ViewOf(t.stores, LATEST).value;
    var filled :| s.cache[LATEST].updates == StreamUpdates(v, filled);
    if KeyOf(v) == KeyOf(v') {
      KeptStart(v, v');
      if v.telemetry.startedAt == v'.telemetry.startedAt {
        SameKeySameStream(v, v');
        SameStreamSameUpdates(v, v', filled);
      } else if Computed(StreamUpdates(v, filled), v') {
        CurrentOnlyIfStarted(v, filled, v');
      }
    } else {
      assert Computed(StreamUpdates(v', clock), v');
    }
  }

  lemma KeptStart(v: View, v': View)
    requires KeyOf(v) == KeyOf(v') && Timed(v.telemetry)
    ensures StartKept(v.telemetry, v'.telemetry) ==> v.telemetry.startedAt == v'.telemetry.startedAt
  {
  }

  /** A read that answers currently leaves a current slot. */
  lemma ReadFills(s: State, clock: seq<Timestamp>)
    requires ViewOf(s.stores, LATEST).Some? && !StaleRead(s, LATEST, clock)
    ensures SlotFresh(Apply(s, ReadStream(LATEST, clock))) && Apply(s, ReadStream(LATEST, clock)).stores == s.stores
  {
    hide StreamUpdates, KeyOf, ViewOf;
  }

  /** Reads through the alias on every run: after a current one at some point - whatever came before it, operations
      through the alias included - and any operations on concrete ids that leave the same workflow saved last, the next
      is current exactly if the key has changed or the start time has not; so it always is if that workflow was not
      started anew. */
  lemma {:induction false} AliasReadIsCurrentIff(
    before: seq<Op>, filled: seq<Timestamp>, ops: seq<Op>, a: Id, clock: seq<Timestamp>)
    requires LegalRun(EMPTY, before) && Run(EMPTY, before).stores.latest == Some(a)
    requires !StaleRead(Run(EMPTY, before), LATEST, filled)
    requires var s := Apply(Run(EMPTY, before), ReadStream(LATEST, filled));
      && LegalRun(s, ops) && (forall i :: 0 <= i < |ops| ==> ops[i].id != LATEST)
      && Run(s, ops).stores.latest == Some(a)
    ensures var s := Apply(Run(EMPTY, before), ReadStream(LATEST, filled));
      var t := Run(s, ops);
      && ViewOf(s.stores, LATEST).Some? && ViewOf(t.stores, LATEST).Some?
      && var v, v' := ViewOf(s.stores, LATEST).value, ViewOf(t.stores, LATEST).value;
      && (!StaleRead(t, LATEST, clock) <==> KeyOf(v) != KeyOf(v') || v.telemetry.startedAt == v'.telemetry.startedAt)
      && ((forall i :: 0 <= i < |ops| ==> !Restarts(ops[i], a)) ==> !StaleRead(t, LATEST, clock))
  {
    hide Run, LegalRun, ViewOf, KeyOf, StaleRead, Apply, SlotFresh, Restarts;
    var r := Run(EMPTY, before);
    assert AliasSound(r.stores) by {
      EmptySound();
      RunKeepsSound(EMPTY, before);
    }
    AliasView(r.stores);
    ReadFills(r, filled);
    hide AliasSound;
    SlotServes(Apply(r, ReadStream(LATEST, filled)), ops, a, clock);
  }

  lemma EmptySound()
    ensures AliasSound(EMPTY.stores)
  {
  }

  // ---------------------------------------------------------------- two workflows, or one started twice

  function CreateAndStartOps(id: Id, at: Timestamp): seq<Op> {
    [CreateOf(id), Transition(id, Running, [at])]
  }

  lemma EmptyConsistent()
    ensures Consistent(EMPTY.stores)
  {
  }

  /** Two workflows started one after the other and read through the alias: the second read is stale exactly if they
      started at different times. The alias has one slot, which saving a workflow under its own id does not drop, and
      the key holds no start time. */
  lemma AliasReadsGoStale(a: Id, b: Id, at: Timestamp, later: Timestamp)
    requires a != b && a != LATEST && b != LATEST
    ensures var ops := CreateAndStartOps(a, at) + ([ReadStream(LATEST, [])] + CreateAndStartOps(b, later));
      LegalRun(EMPTY, ops) && (StaleRead(Run(EMPTY, ops), LATEST, []) <==> at != later)
  {
    hide Apply, PerformAll, Writes, StreamUpdates, Consistent, LegalRun, Run, ShowsOnlyStart, StaleRead;
    EmptyConsistent();
    CreateAndStart(EMPTY, a, at);
    var s := Run(EMPTY, CreateAndStartOps(a, at));
    var t := Apply(s, ReadStream(LATEST, []));
    ReadCaches(s, a, at);
    CreateAndStart(t, b, later);
    StaleAfter(s, t, Run(t, CreateAndStartOps(b, later)), a, b, at, later);
    ReadThenRun(s, LATEST, CreateAndStartOps(b, later));
    RunConcat(EMPTY, CreateAndStartOps(a, at), [ReadStream(LATEST, [])] + CreateAndStartOps(b, later));
  }

  /** One workflow is enough: started, read through the alias and started again, the next read is stale exactly if the
      two starts differ. */
  lemma RestartGoesStale(a: Id, at: Timestamp, later: Timestamp)
    requires a != LATEST
    ensures var ops := CreateAndStartOps(a, at) + ([ReadStream(LATEST, [])] + [Transition(a, Running, [later])]);
      LegalRun(EMPTY, ops) && (StaleRead(Run(EMPTY, ops), LATEST, []) <==> at != later)
  {
    hide Apply, PerformAll, Writes, StreamUpdates, Consistent, LegalRun, Run, ShowsOnlyStart, StaleRead;
    EmptyConsistent();
    CreateAndStart(EMPTY, a, at);
    var s := Run(EMPTY, CreateAndStartOps(a, at));
    var t := Apply(s, ReadStream(LATEST, []));
    ReadCaches(s, a, at);
    assert ShowsOnlyStart(t, a, at) by { SameStoresShow(s, t, a, at); }
    StartAgain(t, a, at, later);
    StaleAfter(s, t, Run(t, [Transition(a, Running, [later])]), a, a, at, later);
    ReadThenRun(s, LATEST, [Transition(a, Running, [later])]);
    RunConcat(EMPTY, CreateAndStartOps(a, at), [ReadStream(LATEST, [])] + [Transition(a, Running, [later])]);
  }

  /** No read of the id ever goes stale. */
  ghost predicate NeverStale(id: Id) {
    forall ops, clock :: LegalRun(EMPTY, ops) ==> !StaleRead(Run(EMPTY, ops), id, clock)
  }

  /** The ids whose reads are always current are exactly the concrete ones. */
  lemma NeverStaleIffConcrete(id: Id)
    ensures NeverStale(id) <==> id != LATEST
  {
    hide Run, LegalRun, ReadUpdates, ViewOf;
    if id == LATEST {
      hide StaleRead;
      assert "" != LATEST;
      RestartGoesStale("", 0, 1);
    } else {
      forall ops, clock | LegalRun(EMPTY, ops) ensures !StaleRead(Run(EMPTY, ops), id, clock) {
        CacheCoherence(ops, id, clock);
      }
    }
  }

  lemma ReadCaches(s: State, id: Id, at: Timestamp)
    requires ShowsOnlyStart(s, id, at) && LATEST !in s.cache
    ensures var t := Apply(s, ReadStream(LATEST, []));
      && t.stores == s.stores && LATEST in t.cache
      && t.cache[LATEST] == CacheEntry(KeyOf(ViewOf(s.stores, LATEST).value),
                                       StreamUpdates(ViewOf(s.stores, LATEST).value, []))
  {
    hide StreamUpdates, KeyOf;
  }

  lemma StaleAfter(s: State, t: State, end: State, a: Id, b: Id, at: Timestamp, later: Timestamp)
    requires ShowsOnlyStart(s, a, at) && ShowsOnlyStart(end, b, later)
    requires LATEST in t.cache && LATEST in end.cache && end.cache[LATEST] == t.cache[LATEST]
    requires t.cache[LATEST] == CacheEntry(KeyOf(ViewOf(s.stores, LATEST).value),
                                           StreamUpdates(ViewOf(s.stores, LATEST).value, []))
    ensures StaleRead(end, LATEST, []) <==> at != later
  {
    hide StreamUpdates;
    OnlyStarted(ViewOf(s.stores, LATEST).value, at);
    OnlyStarted(ViewOf(end.stores, LATEST).value, later);
    assert Computed(StreamUpdates(ViewOf(end.stores, LATEST).value, []), ViewOf(end.stores, LATEST).value);
  }

  lemma SameStoresShow(s: State, t: State, id: Id, at: Timestamp)
    requires t.stores == s.stores && ShowsOnlyStart(s, id, at)
    ensures ShowsOnlyStart(t, id, at)
  {
  }

  lemma {:induction false} ReadThenRun(s: State, id: Id, ops: seq<Op>)
    requires LegalRun(Apply(s, ReadStream(id, [])), ops)
    ensures LegalRun(s, [ReadStream(id, [])] + ops)
    ensures Run(s, [ReadStream(id, [])] + ops) == Run(Apply(s, ReadStream(id, [])), ops)
  {
    hide Apply;
    assert ([ReadStream(id, [])] + ops)[1..] == ops;
  }

  function CreateOf(id: Id): Op {
    Create(id, "q", "w", "o", "u", [])
  }

  lemma {:induction false} RunConcat(s: State, a: seq<Op>, b: seq<Op>)
    requires LegalRun(s, a) && LegalRun(Run(s, a), b)
    ensures LegalRun(s, a + b) && Run(s, a + b) == Run(Run(s, a), b)
    decreases |a|
  {
    hide Apply;
    hide Legal;
    if a == [] {
      assert a + b == b;
    } else {
      RunConcat(Apply(s, a[0]), a[1..], b);
      assert (a + b)[1..] == a[1..] + b;
    }
  }

  /** The view of a workflow that has only been started, as the alias shows it: no events, only a start time. */
  ghost predicate ShowsOnlyStart(s: State, id: Id, at: Timestamp) {
    && s.stores.latest == Some(id)
    && ViewOf(s.stores, LATEST).Some?
    && var v := ViewOf(s.stores, LATEST).value;
       v.workflow.status == Running && v.workflow.currentStage == None && v.events == [] && v.workflow.stages == []
       && v.workflow.agents == [] && v.telemetry == NO_TELEMETRY.(startedAt := Some(at))
  }

  lemma {:induction false} CreateAndStart(s: State, id: Id, at: Timestamp)
    requires Consistent(s.stores) && id !in s.stores.workflows && id != LATEST
    requires LATEST !in s.stores.telemetry && ListOf(s.stores.events, LATEST) == []
    ensures var ops := CreateAndStartOps(id, at);
      var t := Run(s, ops);
      && LegalRun(s, ops) && Consistent(t.stores) && ShowsOnlyStart(t, id, at)
      && LATEST !in t.stores.telemetry && ListOf(t.stores.events, LATEST) == []
      && (LATEST in t.cache <==> LATEST in s.cache) && (LATEST in s.cache ==> t.cache[LATEST] == s.cache[LATEST])
      && t.stores.workflows.Keys == s.stores.workflows.Keys + {id}
  {
    hide PerformAll, Writes;
    var create, start := CreateOf(id), Transition(id, Running, [at]);
    CreateEffect(s, create);
    ApplyKeepsConsistent(s, create);
    NoAlias(s, create);
    var mid := Apply(s, create);
    TransitionEffect(mid, id, Running, [at]);
    ApplyKeepsConsistent(mid, start);
    NoAlias(mid, start);
    LatestIs(mid, start);
    GetKnown(Apply(mid, start).stores, LATEST);
    assert Legal(s, create) && Legal(mid, start) && LegalRun(Apply(mid, start), []);
    assert LegalRun(mid, [start]);
    assert [create, start][1..] == [start];
    assert [start][1..] == [];
    assert Run(Apply(mid, start), []) == Apply(mid, start);
    assert Run(mid, [start]) == Apply(mid, start);
  }

  lemma {:induction false} StartAgain(s: State, id: Id, at: Timestamp, later: Timestamp)
    requires Consistent(s.stores) && ShowsOnlyStart(s, id, at) && id != LATEST && LATEST !in s.stores.telemetry
    ensures var ops := [Transition(id, Running, [later])];
      var t := Run(s, ops);
      && LegalRun(s, ops) && ShowsOnlyStart(t, id, later)
      && (LATEST in t.cache <==> LATEST in s.cache) && (LATEST in s.cache ==> t.cache[LATEST] == s.cache[LATEST])
  {
    hide PerformAll, Writes;
    var start := Transition(id, Running, [later]);
    GetKnown(s.stores, LATEST);
    TransitionEffect(s, id, Running, [later]);
    ApplyKeepsConsistent(s, start);
    NoAlias(s, start);
    LatestIs(s, start);
    GetKnown(Apply(s, start).stores, LATEST);
    assert [start][1..] == [];
    assert LegalRun(Apply(s, start), []) && Run(Apply(s, start), []) == Apply(s, start);
  }

  /** Operations on concrete ids leave the alias with no telemetry, and its events and its slot as they were. */
  lemma NoAlias(s: State, op: Op)
    requires Consistent(s.stores) && Legal(s, op) && op.id != LATEST
    requires LATEST !in s.stores.telemetry
    ensures var t := Apply(s, op);
      LATEST !in t.stores.telemetry && ListOf(t.stores.events, LATEST) == ListOf(s.stores.events, LATEST)
      && (LATEST in t.cache <==> LATEST in s.cache) && (LATEST in s.cache ==> t.cache[LATEST] == s.cache[LATEST])
  {
    WritesConcrete(s, op);
    WritesAbout(s, op);
    NoAliasWrites(s, Writes(s.stores, op));
  }

  lemma WritesAbout(s: State, op: Op)
    requires Consistent(s.stores) && op.id != LATEST
    ensures forall i :: 0 <= i < |Writes(s.stores, op)| && Writes(s.stores, op)[i].Append?
              ==> Writes(s.stores, op)[i].id == op.id
  {
  }

  lemma {:induction false} NoAliasWrites(s: State, writes: seq<Write>)
    requires LATEST !in s.stores.telemetry
    requires forall i :: 0 <= i < |writes| && writes[i].Save? ==> writes[i].workflow.id != LATEST
    requires forall i :: 0 <= i < |writes| && writes[i].Append? ==> writes[i].id != LATEST
    ensures var t := PerformAll(s, writes);
      LATEST !in t.stores.telemetry && ListOf(t.stores.events, LATEST) == ListOf(s.stores.events, LATEST)
      && (LATEST in t.cache <==> LATEST in s.cache) && (LATEST in s.cache ==> t.cache[LATEST] == s.cache[LATEST])
  {
    if writes != [] {
      NoAliasWrites(s, writes[..|writes| - 1]);
    }
  }

  lemma LatestIs(s: State, op: Op)
    requires Consistent(s.stores) && op.Transition? && op.id in s.stores.workflows
    ensures Apply(s, op).stores.latest == Some(op.id)
  {
    var w := s.stores.workflows[op.id];
    GetConcrete(s.stores, op.id);
    TransitionEventsWritten(w, op.id, op.status, op.clock, op.id);
    SavedFirst(s, Writes(s.stores, op), Transitioned(w, op.status, op.clock));
  }

  lemma OnlyStarted(v: View, at: Timestamp)
    requires v.events == [] && v.workflow.stages == [] && v.workflow.agents == []
    requires v.telemetry == NO_TELEMETRY.(startedAt := Some(at))
    ensures forall clock ::
      StreamUpdates(v, clock) == [Update(at, TelemetryStreamUpdate, TelemetryStarted, OfStart(at))]
  {
    forall clock
      ensures StreamUpdates(v, clock) == [Update(at, TelemetryStreamUpdate, TelemetryStarted, OfStart(at))]
    {
      var one := Update(at, TelemetryStreamUpdate, TelemetryStarted, OfStart(at));
      assert Unsorted(v, clock) == [one];
      assert [one][1..] == [];
      assert Sorting.SortBy(UpdateKey, [one][1..]) == [];
    }
  }
}
