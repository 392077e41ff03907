/** Nothing stable is forgotten: once every coroutine of a workflow has finished, each update whose time stamp
    comes from the stores has been published, exactly once per key. */
module Publication {
  import opened Models
  import opened Stores
  import opened Service
  import opened Effects
  import opened StreamCache
  import opened Runtime
  import Fingerprint

  /** The view of a known concrete id (ViewConcrete: what `ViewOf` reads in consistent stores). */
  function ViewAt(s: Stores, id: Id): View
    requires id in s.workflows
  {
    View(s.workflows[id], ListOf(s.events, id), s.workflows[id].telemetry)
  }

  function Pending(task: Task): seq<Update> {
    if task.phase.Broadcasting? || task.phase.Failing? then task.phase.pending else []
  }

  /** The coroutine has made its first service call. */
  predicate Begun(task: Task) {
    task.phase != Ready(0)
  }

  predicate Broken(task: Task) {
    task.phase.Failing? || task.phase.Reported? || task.phase.Raised?
  }

  predicate WellPhased(task: Task) {
    match task.phase
    case Ready(n) => n <= 7
    case Broadcasting(n, _) => n <= 7
    case _ => true
  }

  /** An update is on the wire already, or some coroutine of its workflow still has it to publish. */
  ghost predicate InHand(r: Runtime, id: Id, u: Update) {
    || KeyFor(id, u) in r.published
    || exists k :: 0 <= k < |r.tasks| && r.tasks[k].id == id && u in Pending(r.tasks[k])
  }

  ghost predicate Covered(r: Runtime, id: Id) {
    id in r.service.stores.workflows
    && forall u :: StableUpdate(ViewAt(r.service.stores, id), u) ==> InHand(r, id, u)
  }

  /** A workflow nobody has run yet shows nothing but events and its (empty) telemetry. */
  ghost predicate Untouched(s: Stores, id: Id) {
    && (id !in s.workflows ==> ListOf(s.events, id) == [])
    && (id in s.workflows ==>
          s.workflows[id].stages == [] && s.workflows[id].agents == []
          && forall e :: e in ListOf(s.events, id) ==> e.kind == EventType.WorkflowCreated)
  }

  ghost predicate HasBegun(r: Runtime, id: Id) {
    exists k :: 0 <= k < |r.tasks| && r.tasks[k].id == id && Begun(r.tasks[k])
  }

  ghost predicate HasBroken(r: Runtime, id: Id) {
    exists k :: 0 <= k < |r.tasks| && r.tasks[k].id == id && Broken(r.tasks[k])
  }

  ghost predicate CoverageInv(r: Runtime, id: Id) {
    && Coherent(r.service)
    && (forall k :: 0 <= k < |r.tasks| ==> r.tasks[k].id != LATEST && WellPhased(r.tasks[k]))
    && (HasBroken(r, id) || (if HasBegun(r, id) then Covered(r, id) else Untouched(r.service.stores, id)))
  }

  /** Outside callers may create the workflow and read it, but only coroutines move it on. */
  ghost predicate OnlyTasksMove(step: Step, id: Id) {
    step.Outside? ==> step.op.Create? || step.op.ReadStream? || step.op.id != id
  }

  // ---------------------------------------------------------------- updates by kind

  lemma {:induction false} KindMembers(events: seq<Event>, source: EventType, kind: UpdateType, u: Update)
    ensures u in UpdatesOfKind(events, source, kind) <==>
      exists e :: e in events && e.kind == source && u == Update(e.timestamp, kind, e.message, OfEvent(e))
  {
    if events != [] {
      KindMembers(events[1..], source, kind, u);
      assert events == [events[0]] + events[1..];
    }
  }

  lemma {:induction false} OnlyMembers(updates: seq<Update>, n: nat, u: Update)
    ensures u in Only(updates, n) <==> u in updates && Publishes(n, u.kind)
  {
    if updates != [] {
      OnlyMembers(updates[1..], n, u);
      assert updates == [updates[0]] + updates[1..];
    }
  }

  /** Which part of the view an update of each kind comes from. */
  lemma StableByKind(v: View, u: Update)
    requires StableUpdate(v, u)
    ensures match u.kind
      case WorkflowEventUpdate => true
      case LifecycleUpdate =>
        exists e :: e in v.events && e.kind == EventType.LifecycleTransition
                    && u == Update(e.timestamp, LifecycleUpdate, e.message, OfEvent(e))
      case InvestigationStreamUpdate =>
        exists e :: e in v.events && e.kind == EventType.InvestigationUpdate
                    && u == Update(e.timestamp, InvestigationStreamUpdate, e.message, OfEvent(e))
      case StageUpdate => u in StageUpdates(v.workflow.stages)
      case AgentUpdate =>
        exists i :: 0 <= i < |v.workflow.agents| && Stamped(v.workflow.agents[i], v.workflow.stages)
                    && u == AgentUpdates(v.workflow.agents, v.workflow.stages, [])[i]
      case TelemetryStreamUpdate => u in TelemetryUpdates(v.telemetry)
  {
    KindMembers(v.events, EventType.LifecycleTransition, LifecycleUpdate, u);
    KindMembers(v.events, EventType.InvestigationUpdate, InvestigationStreamUpdate, u);
  }

  /** A call that moves the workflow on adds no stable update of a kind it does not publish. */
  ghost predicate NothingElseNew(v: View, v': View, n: nat) {
    forall u :: StableUpdate(v', u) && !Publishes(n, u.kind) ==> StableUpdate(v, u)
  }

  lemma LifecycleAddsItsKinds(v: View, v': View, n: nat, added: seq<Event>)
    requires n == 0 || n == 7
    requires v'.events == v.events + added
    requires forall e :: e in added ==> e.kind != EventType.InvestigationUpdate
    requires v'.workflow.stages == v.workflow.stages && v'.workflow.agents == v.workflow.agents
    ensures NothingElseNew(v, v', n)
  {
    forall u | StableUpdate(v', u) && !Publishes(n, u.kind) ensures StableUpdate(v, u) {
      StableByKind(v', u);
      KindMembers(v.events, EventType.InvestigationUpdate, InvestigationStreamUpdate, u);
    }
  }

  lemma StageAddsItsKinds(v: View, v': View, n: nat, added: seq<Event>)
    requires 1 <= n <= 6
    requires v'.events == v.events + added
    requires forall e :: e in added ==> e.kind != EventType.LifecycleTransition
    requires v'.telemetry == v.telemetry
    ensures NothingElseNew(v, v', n)
  {
    forall u | StableUpdate(v', u) && !Publishes(n, u.kind) ensures StableUpdate(v, u) {
      StableByKind(v', u);
      KindMembers(v.events, EventType.LifecycleTransition, LifecycleUpdate, u);
    }
  }

  lemma StageCallAdds(s: State, id: Id, n: nat, policy: AgentPolicy, clock: seq<Timestamp>)
    requires Consistent(s.stores) && id in s.stores.workflows && 1 <= n <= 6
    ensures var t := Apply(s, CompleteStage(id, WORKFLOW_STAGES[n - 1], policy, clock));
      id in t.stores.workflows && NothingElseNew(ViewAt(s.stores, id), ViewAt(t.stores, id), n)
  {
    hide Apply, AgentNames, StableUpdate, NothingElseNew;
    var stage := WORKFLOW_STAGES[n - 1];
    var t := Apply(s, CompleteStage(id, stage, policy, clock));
    var traces := Handoffs(AgentNames(stage, policy), s.stores.workflows[id].question, clock);
    StageEffect(s, id, stage, policy, clock);
    StageAddsItsKinds(ViewAt(s.stores, id), ViewAt(t.stores, id), n, StageEvents(stage, traces, clock));
  }

  lemma LifecycleCallAdds(s: State, id: Id, n: nat, status: Status, clock: seq<Timestamp>)
    requires Consistent(s.stores) && id in s.stores.workflows && (n == 0 || n == 7)
    ensures var t := Apply(s, Transition(id, status, clock));
      id in t.stores.workflows && NothingElseNew(ViewAt(s.stores, id), ViewAt(t.stores, id), n)
  {
    hide Apply, StableUpdate, NothingElseNew;
    var t := Apply(s, Transition(id, status, clock));
    TransitionEffect(s, id, status, clock);
    LifecycleAddsItsKinds(ViewAt(s.stores, id), ViewAt(t.stores, id), n,
                          TransitionEvents(s.stores.workflows[id], status, clock));
  }

  /** What a coroutine's service call does to its own workflow's view. */
  lemma CallAdds(s: State, id: Id, n: nat, policy: AgentPolicy, clock: seq<Timestamp>)
    requires Consistent(s.stores) && id in s.stores.workflows && id != LATEST && n <= 7
    ensures var t := Apply(s, CallOf(id, n, policy, clock));
      id in t.stores.workflows && Consistent(t.stores)
      && NothingElseNew(ViewAt(s.stores, id), ViewAt(t.stores, id), n)
  {
    hide Apply, StableUpdate, NothingElseNew;
    ApplyKeepsConsistent(s, CallOf(id, n, policy, clock));
    if 1 <= n <= 6 {
      StageCallAdds(s, id, n, policy, clock);
    } else {
      LifecycleCallAdds(s, id, n, if n == 0 then Running else Completed, clock);
    }
  }

  /** A call and its read: the stores move on, the service stays coherent, and every stable update of a published
      kind is in the list to broadcast. */
  lemma CallReadsAll(s: State, op: Op, n: nat, readClock: seq<Timestamp>)
    requires Coherent(s) && Legal(s, op) && op.id != LATEST && !op.ReadStream?
    requires op.id in Apply(s, op).stores.workflows
    ensures var (t, updates) := CallAndRead(s, op, n, readClock);
      && t.stores == Apply(s, op).stores && Coherent(t) && op.id in t.stores.workflows
      && forall u :: StableUpdate(ViewAt(t.stores, op.id), u) && Publishes(n, u.kind) ==> u in updates
  {
    var mid := Apply(s, op);
    WritesConcrete(s, op);
    WritesKeepCoherent(s, Writes(s.stores, op));
    hide Apply, StableUpdate, StreamUpdates, KeyOf;
    Fingerprint.ViewConcrete(mid.stores, op.id);
    ReadIsFresh(mid, op.id, readClock);
    var v := ViewAt(mid.stores, op.id);
    var updates := ReadUpdates(mid, op.id, readClock).0.value;
    var clock :| updates == StreamUpdates(v, clock);
    forall u | StableUpdate(v, u) && Publishes(n, u.kind) ensures u in Only(updates, n) {
      StableInEveryView(v, clock, u);
      OnlyMembers(updates, n, u);
    }
  }

  // ---------------------------------------------------------------- the steps

  /** Everything in hand stays in hand when the pending lists and the published set only move updates between them. */
  lemma StillCovered(r: Runtime, t: Runtime, id: Id, k: nat)
    requires Covered(r, id) && t.service.stores == r.service.stores
    requires k < |r.tasks| && |t.tasks| == |r.tasks| && r.published <= t.published
    requires forall j :: 0 <= j < |r.tasks| ==> t.tasks[j].id == r.tasks[j].id && (j != k ==> t.tasks[j] == r.tasks[j])
    requires forall u :: u in Pending(r.tasks[k]) ==>
      u in Pending(t.tasks[k]) || KeyFor(r.tasks[k].id, u) in t.published
    ensures Covered(t, id)
  {
    forall u | StableUpdate(ViewAt(t.service.stores, id), u) ensures InHand(t, id, u) {
      assert InHand(r, id, u);
      if KeyFor(id, u) !in r.published {
        var j :| 0 <= j < |r.tasks| && r.tasks[j].id == id && u in Pending(r.tasks[j]);
        assert t.tasks[j].id == id;
      }
    }
  }

  /** A coroutine's service call on its own workflow: what is new goes into its list, what is old is in hand. */
  lemma CallCovers(r: Runtime, t: Runtime, id: Id, k: nat, updates: seq<Update>)
    requires CoverageInv(r, id) && k < |r.tasks| && r.tasks[k].id == id && r.tasks[k].phase.Ready?
    requires id in r.service.stores.workflows && id in t.service.stores.workflows && Coherent(t.service)
    requires t.tasks == r.tasks[k := Task(id, Broadcasting(r.tasks[k].phase.n, updates))]
    requires t.published == r.published
    requires NothingElseNew(ViewAt(r.service.stores, id), ViewAt(t.service.stores, id), r.tasks[k].phase.n)
    requires forall u :: StableUpdate(ViewAt(t.service.stores, id), u) && Publishes(r.tasks[k].phase.n, u.kind)
               ==> u in updates
    ensures CoverageInv(t, id)
  {
    hide StableUpdate, Coherent;
    if HasBroken(r, id) {
      var j :| 0 <= j < |r.tasks| && r.tasks[j].id == id && Broken(r.tasks[j]);
      assert t.tasks[j] == r.tasks[j];
    } else {
      assert Begun(t.tasks[k]);
      forall u | StableUpdate(ViewAt(t.service.stores, id), u) ensures InHand(t, id, u) {
        if Publishes(r.tasks[k].phase.n, u.kind) {
          assert u in Pending(t.tasks[k]);
        } else {
          OldUpdateInHand(r, id, k, u);
          if KeyFor(id, u) !in r.published {
            var j :| 0 <= j < |r.tasks| && r.tasks[j].id == id && u in Pending(r.tasks[j]);
            assert t.tasks[j] == r.tasks[j];
          }
        }
      }
    }
  }

  /** Before its call a coroutine relies on this: old updates of the kinds it will not publish are in hand. */
  lemma OldUpdateInHand(r: Runtime, id: Id, k: nat, u: Update)
    requires CoverageInv(r, id) && !HasBroken(r, id) && id in r.service.stores.workflows
    requires k < |r.tasks| && r.tasks[k].id == id && r.tasks[k].phase.Ready?
    requires StableUpdate(ViewAt(r.service.stores, id), u) && !Publishes(r.tasks[k].phase.n, u.kind)
    ensures InHand(r, id, u)
  {
    if !HasBegun(r, id) {
      assert !Begun(r.tasks[k]);
      Fingerprint.ViewConcrete(r.service.stores, id);
      StableByKind(ViewAt(r.service.stores, id), u);
      assert false;
    }
  }

  lemma OtherTaskKeeps(r: Runtime, t: Runtime, id: Id, k: nat)
    requires CoverageInv(r, id) && k < |r.tasks| && r.tasks[k].id != id && Coherent(t.service)
    requires |t.tasks| == |r.tasks| && r.published <= t.published
    requires SameFor(r.service.stores, t.service.stores, id)
    requires t.tasks[k].id == r.tasks[k].id && WellPhased(t.tasks[k])
    requires forall j :: 0 <= j < |r.tasks| && j != k ==> t.tasks[j] == r.tasks[j]
    ensures CoverageInv(t, id)
  {
    hide StableUpdate;
    if HasBroken(r, id) {
      var j :| 0 <= j < |r.tasks| && r.tasks[j].id == id && Broken(r.tasks[j]);
      assert t.tasks[j] == r.tasks[j];
    } else if HasBegun(r, id) {
      var j :| 0 <= j < |r.tasks| && r.tasks[j].id == id && Begun(r.tasks[j]);
      assert t.tasks[j] == r.tasks[j];
      if id != LATEST {
        Fingerprint.ViewConcrete(r.service.stores, id);
        Fingerprint.ViewConcrete(t.service.stores, id);
      }
      forall u | StableUpdate(ViewAt(t.service.stores, id), u) ensures InHand(t, id, u) {
        assert InHand(r, id, u);
        if KeyFor(id, u) !in r.published {
          var i :| 0 <= i < |r.tasks| && r.tasks[i].id == id && u in Pending(r.tasks[i]);
          assert t.tasks[i] == r.tasks[i];
        }
      }
    }
  }

  lemma FailService(r: Runtime, id: Id, k: nat, opClock: seq<Timestamp>, readClock: seq<Timestamp>)
    requires Coherent(r.service) && k < |r.tasks| && r.tasks[k].id != LATEST
    ensures var t := Fail(r, k, opClock, readClock);
      Coherent(t.service) && (r.tasks[k].id != id ==> SameFor(r.service.stores, t.service.stores, id))
  {
    var own := r.tasks[k].id;
    GetConcrete(r.service.stores, own);
    if own in r.service.stores.workflows {
      var op := Transition(own, Failed, opClock);
      TransitionEffect(r.service, own, Failed, opClock);
      CallReadsAll(r.service, op, 7, readClock);
      if own != id { UntouchedKept(r.service, op, id); }
    }
  }

  /** A failure breaks the workflow it happens to and leaves the others alone. */
  lemma FailKeepsCoverage(
    r: Runtime, id: Id, k: nat, opClock: seq<Timestamp>, readClock: seq<Timestamp>)
    requires CoverageInv(r, id) && k < |r.tasks|
    ensures CoverageInv(Fail(r, k, opClock, readClock), id)
  {
    hide CallAndRead, StableUpdate, Coherent, Covered;
    hide Untouched;
    FailService(r, id, k, opClock, readClock);
    var t := Fail(r, k, opClock, readClock);
    if r.tasks[k].id != id {
      OtherTaskKeeps(r, t, id, k);
    } else {
      assert t.tasks[k].id == id && Broken(t.tasks[k]);
    }
  }

  lemma CallKeepsCoverage(
    r: Runtime, policy: AgentPolicy, id: Id, k: nat, opClock: seq<Timestamp>, readClock: seq<Timestamp>)
    requires CoverageInv(r, id) && k < |r.tasks| && r.tasks[k].phase.Ready?
    requires r.tasks[k].id in r.service.stores.workflows
    ensures CoverageInv(ResumeTask(r, policy, k, false, opClock, readClock), id)
  {
    var own, n := r.tasks[k].id, r.tasks[k].phase.n;
    GetConcrete(r.service.stores, own);
    var op := CallOf(own, n, policy, opClock);
    CallAdds(r.service, own, n, policy, opClock);
    CallReadsAll(r.service, op, n, readClock);
    if own != id { UntouchedKept(r.service, op, id); }
    hide Apply, StableUpdate, Coherent, CallOf;
    hide CallAndRead, Untouched, Covered;
    var t := ResumeTask(r, policy, k, false, opClock, readClock);
    var updates := CallAndRead(r.service, op, n, readClock).1;
    assert t.service == CallAndRead(r.service, op, n, readClock).0;
    assert t.tasks == r.tasks[k := Task(own, Broadcasting(n, updates))];
    if own != id {
      OtherTaskKeeps(r, t, id, k);
    } else {
      CallCovers(r, t, id, k, updates);
    }
  }

  /** A turn of a broadcast loop, or the step from one phase to the next. */
  lemma LoopKeepsCoverage(r: Runtime, t: Runtime, id: Id, k: nat)
    requires CoverageInv(r, id) && k < |r.tasks| && |t.tasks| == |r.tasks|
    requires t.service == r.service && r.published <= t.published
    requires t.tasks[k].id == r.tasks[k].id && WellPhased(t.tasks[k]) && Begun(t.tasks[k])
    requires Broken(r.tasks[k]) ==> Broken(t.tasks[k])
    requires Begun(r.tasks[k])
    requires forall j :: 0 <= j < |r.tasks| && j != k ==> t.tasks[j] == r.tasks[j]
    requires forall u :: u in Pending(r.tasks[k]) ==>
      u in Pending(t.tasks[k]) || KeyFor(r.tasks[k].id, u) in t.published
    ensures CoverageInv(t, id)
  {
    hide StableUpdate, Coherent, Untouched;
    if HasBroken(r, id) {
      var j :| 0 <= j < |r.tasks| && r.tasks[j].id == id && Broken(r.tasks[j]);
      assert t.tasks[j].id == id && Broken(t.tasks[j]);
    } else if HasBegun(r, id) {
      var j :| 0 <= j < |r.tasks| && r.tasks[j].id == id && Begun(r.tasks[j]);
      assert t.tasks[j].id == id && Begun(t.tasks[j]);
      StillCovered(r, t, id, k);
    }
  }

  lemma ResumeKeepsCoverage(
    r: Runtime, policy: AgentPolicy, id: Id, k: nat, fails: bool, opClock: seq<Timestamp>, readClock: seq<Timestamp>)
    requires CoverageInv(r, id) && k < |r.tasks|
    ensures CoverageInv(ResumeTask(r, policy, k, fails, opClock, readClock), id)
  {
    hide CoverageInv, CallAndRead;
    var task := r.tasks[k];
    var t := ResumeTask(r, policy, k, fails, opClock, readClock);
    CoverageParts(r, id, k);
    match task.phase {
      case Ready(n) =>
        if task.id in r.service.stores.workflows {
          CallKeepsCoverage(r, policy, id, k, opClock, readClock);
        } else {
          FailKeepsCoverage(r, id, k, opClock, readClock);
        }
      case Broadcasting(n, pending) =>
        if fails {
          FailKeepsCoverage(r, id, k, opClock, readClock);
        } else {
          if pending != [] { assert pending == [pending[0]] + pending[1..]; }
          LoopKeepsCoverage(r, t, id, k);
        }
      case PlaceholderDue =>
        if fails {
          var sent := r.(wire := r.wire + [Placeholder(task.id)]);
          WireKeepsCoverage(r, sent.wire, id);
          FailKeepsCoverage(sent, id, k, opClock, readClock);
        } else {
          LoopKeepsCoverage(r, t, id, k);
        }
      case Failing(pending) =>
        if fails {
          BrokenKeepsCoverage(r, t, id, k);
        } else {
          if pending != [] { assert pending == [pending[0]] + pending[1..]; }
          LoopKeepsCoverage(r, t, id, k);
        }
      case Succeeded =>
      case Reported =>
      case Raised =>
    }
  }

  lemma WireKeepsCoverage(r: Runtime, wire: seq<Sent>, id: Id)
    requires CoverageInv(r, id)
    ensures CoverageInv(r.(wire := wire), id)
  {
    hide StableUpdate, Coherent, WellPhased;
    var t := r.(wire := wire);
    assert HasBroken(t, id) == HasBroken(r, id) && HasBegun(t, id) == HasBegun(r, id);
  }

  lemma CoverageParts(r: Runtime, id: Id, k: nat)
    requires CoverageInv(r, id) && k < |r.tasks|
    ensures Consistent(r.service.stores) && r.tasks[k].id != LATEST && WellPhased(r.tasks[k])
    ensures GetWorkflow(r.service.stores, r.tasks[k].id).Some? <==> r.tasks[k].id in r.service.stores.workflows
  {
    GetConcrete(r.service.stores, r.tasks[k].id);
  }

  /** A coroutine that was failing already gives up. */
  lemma BrokenKeepsCoverage(r: Runtime, t: Runtime, id: Id, k: nat)
    requires CoverageInv(r, id) && k < |r.tasks| && Broken(r.tasks[k]) && t == SetPhase(r, k, Raised)
    ensures CoverageInv(t, id)
  {
    if r.tasks[k].id == id {
      assert t.tasks[k].id == id && Broken(t.tasks[k]);
    } else {
      OtherTaskKeeps(r, t, id, k);
    }
  }

  lemma SpawnKeepsCoverage(r: Runtime, id: Id, spawned: Id)
    requires CoverageInv(r, id) && spawned != LATEST
    ensures CoverageInv(r.(tasks := r.tasks + [Task(spawned, Ready(0))]), id)
  {
    hide StableUpdate, Coherent, Untouched;
    var t := r.(tasks := r.tasks + [Task(spawned, Ready(0))]);
    if HasBroken(r, id) {
      var j :| 0 <= j < |r.tasks| && r.tasks[j].id == id && Broken(r.tasks[j]);
      assert t.tasks[j] == r.tasks[j];
    } else if HasBegun(r, id) {
      var j :| 0 <= j < |r.tasks| && r.tasks[j].id == id && Begun(r.tasks[j]);
      assert t.tasks[j] == r.tasks[j];
      forall u | StableUpdate(ViewAt(t.service.stores, id), u) ensures InHand(t, id, u) {
        assert InHand(r, id, u);
        if KeyFor(id, u) !in r.published {
          var i :| 0 <= i < |r.tasks| && r.tasks[i].id == id && u in Pending(r.tasks[i]);
          assert t.tasks[i] == r.tasks[i];
        }
      }
    }
  }

  lemma OutsideKeepsCoherent(s: State, op: Op)
    requires Coherent(s) && Legal(s, op) && op.id != LATEST
    ensures Coherent(Apply(s, op))
  {
    if op.ReadStream? {
      ReadIsFresh(s, op.id, op.clock);
    } else {
      WritesConcrete(s, op);
      WritesKeepCoherent(s, Writes(s.stores, op));
    }
  }

  lemma OutsideKeepsCoverage(r: Runtime, id: Id, op: Op)
    requires CoverageInv(r, id) && op.id != LATEST && Legal(r.service, op)
    requires op.Create? || op.ReadStream? || op.id != id
    ensures CoverageInv(r.(service := Apply(r.service, op)), id)
  {
    var t := r.(service := Apply(r.service, op));
    assert Consistent(r.service.stores);
    hide Apply, StableUpdate, Coherent;
    OutsideKeepsCoherent(r.service, op);
    if op.Create? && op.id == id {
      CreateEffect(r.service, op);
      assert !HasBroken(r, id) ==> !HasBegun(r, id);
    } else {
      UntouchedKept(r.service, op, id);
      assert Covered(r, id) ==> ViewAt(t.service.stores, id) == ViewAt(r.service.stores, id);
      if Covered(r, id) {
        forall u | StableUpdate(ViewAt(t.service.stores, id), u) ensures InHand(t, id, u) {
          assert InHand(r, id, u);
        }
      }
    }
    assert HasBroken(t, id) <==> HasBroken(r, id);
    assert HasBegun(t, id) <==> HasBegun(r, id);
  }

  lemma {:induction false} StepsKeepCoverage(r: Runtime, policy: AgentPolicy, steps: seq<Step>, id: Id)
    requires CoverageInv(r, id) && LegalSteps(r, policy, steps)
    requires forall i :: 0 <= i < |steps| ==> OnlyTasksMove(steps[i], id)
    ensures CoverageInv(TakeAll(r, policy, steps), id)
    decreases |steps|
  {
    hide CoverageInv, ResumeTask, Apply;
    if steps != [] {
      match steps[0] {
        case Spawn(spawned) => SpawnKeepsCoverage(r, id, spawned);
        case Outside(op) => OutsideKeepsCoverage(r, id, op);
        case Resume(k, fails, opClock, readClock) =>
          if k < |r.tasks| { ResumeKeepsCoverage(r, policy, id, k, fails, opClock, readClock); }
      }
      StepsKeepCoverage(Take(r, policy, steps[0]), policy, steps[1..], id);
    }
  }

  /** How often a key is on the wire. */
  function TimesSent(wire: seq<Sent>, key: Key): nat {
    if wire == [] then 0
    else
      TimesSent(wire[..|wire| - 1], key)
      + (if wire[|wire| - 1].Keyed? && KeyFor(wire[|wire| - 1].id, wire[|wire| - 1].update) == key then 1 else 0)
  }

  lemma {:induction false} SentOnce(r: Runtime, key: Key, n: nat)
    requires OncePerKey(r) && n <= |r.wire|
    ensures TimesSent(r.wire[..n], key)
         == if exists i :: 0 <= i < n && r.wire[i].Keyed? && KeyFor(r.wire[i].id, r.wire[i].update) == key then 1 else 0
  {
    if n > 0 {
      SentOnce(r, key, n - 1);
      assert r.wire[..n][..n - 1] == r.wire[..n - 1];
    }
  }

  /** Publication under interleaving: any number of coroutines on any workflows, awaits interleaved in any way.
      When all coroutines of a workflow have succeeded (and there was one), every update of its stream with a time
      stamp from the stores is on the wire exactly once per key. */
  lemma {:induction false} EverythingPublishedOnce(policy: AgentPolicy, steps: seq<Step>, id: Id, u: Update)
    requires LegalSteps(IDLE, policy, steps) && id != LATEST
    requires forall i :: 0 <= i < |steps| ==> OnlyTasksMove(steps[i], id)
    requires var r := TakeAll(IDLE, policy, steps);
      && (exists k :: 0 <= k < |r.tasks| && r.tasks[k].id == id)
      && (forall k :: 0 <= k < |r.tasks| && r.tasks[k].id == id ==> r.tasks[k].phase == Succeeded)
      && ViewOf(r.service.stores, id).Some? && StableUpdate(ViewOf(r.service.stores, id).value, u)
    ensures TimesSent(TakeAll(IDLE, policy, steps).wire, KeyFor(id, u)) == 1
  {
    hide TakeAll, LegalSteps, StableUpdate;
    assert CoverageInv(IDLE, id);
    StepsKeepCoverage(IDLE, policy, steps, id);
    PublishedAtMostOnce(IDLE, policy, steps);
    var r := TakeAll(IDLE, policy, steps);
    var k :| 0 <= k < |r.tasks| && r.tasks[k].id == id;
    assert Begun(r.tasks[k]);
    Fingerprint.ViewConcrete(r.service.stores, id);
    assert InHand(r, id, u);
    SentOnce(r, KeyFor(id, u), |r.wire|);
    assert r.wire[..|r.wire|] == r.wire;
  }
}
