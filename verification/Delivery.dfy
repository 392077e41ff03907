/** What one coroutine of the publisher owes, whatever happens to the others (backend/runtime.py): what it read after a
    call it has published, unless it broke; and what a broken one dropped is lost unless it is read again. */
module Delivery {
  import opened Models
  import opened Stores
  import opened Service
  import opened Effects
  import opened StreamCache
  import opened Runtime
  import opened Publication

  // ---------------------------------------------------------------- every reachable state

  ghost predicate Standing(r: Runtime) {
    && Coherent(r.service)
    && forall k :: 0 <= k < |r.tasks| ==> r.tasks[k].id != LATEST && WellPhased(r.tasks[k])
  }

  lemma CallKeepsCoherent(
    s: State, id: Id, n: nat, policy: AgentPolicy, opClock: seq<Timestamp>, readClock: seq<Timestamp>)
    requires Coherent(s) && id in s.stores.workflows && id != LATEST && n <= 7
    ensures var (t, updates) := CallAndRead(s, CallOf(id, n, policy, opClock), n, readClock);
      && Coherent(t) && id in t.stores.workflows
      && (forall u :: StableUpdate(ViewAt(t.stores, id), u) && Publishes(n, u.kind) ==> u in updates)
      && NothingElseNew(ViewAt(s.stores, id), ViewAt(t.stores, id), n)
  {
    hide CallAndRead, StableUpdate, NothingElseNew, Apply;
    CallAdds(s, id, n, policy, opClock);
    CallReadsAll(s, CallOf(id, n, policy, opClock), n, readClock);
  }

  lemma TakeKeepsStanding(r: Runtime, policy: AgentPolicy, step: Step)
    requires Standing(r) && LegalStep(r, step)
    ensures Standing(Take(r, policy, step))
  {
    hide CallAndRead, Coherent, Apply, GetWorkflow, NothingElseNew;
    match step {
      case Spawn(_) =>
      case Outside(op) => OutsideKeepsCoherent(r.service, op);
      case Resume(k, fails, opClock, readClock) =>
        if k < |r.tasks| {
          var task := r.tasks[k];
          FailService(r, task.id, k, opClock, readClock);
          KnownHere(r, k);
          if task.phase.Ready? && task.id in r.service.stores.workflows {
            CallKeepsCoherent(r.service, task.id, task.phase.n, policy, opClock, readClock);
          }
        }
    }
  }

  lemma KnownHere(r: Runtime, k: nat)
    requires Standing(r) && k < |r.tasks|
    ensures GetWorkflow(r.service.stores, r.tasks[k].id).Some? <==> r.tasks[k].id in r.service.stores.workflows
  {
    GetConcrete(r.service.stores, r.tasks[k].id);
  }

  lemma {:induction false} StepsKeepStanding(r: Runtime, policy: AgentPolicy, steps: seq<Step>)
    requires Standing(r) && LegalSteps(r, policy, steps)
    ensures Standing(TakeAll(r, policy, steps))
    decreases |steps|
  {
    hide Standing, Take;
    if steps != [] {
      TakeKeepsStanding(r, policy, steps[0]);
      StepsKeepStanding(Take(r, policy, steps[0]), policy, steps[1..]);
    }
  }

  // ---------------------------------------------------------------- what a coroutine owes

  /** Coroutine `k` has seen to the update: it is published, still in the coroutine's list, or the coroutine broke. */
  ghost predicate Owed(r: Runtime, k: nat, id: Id, u: Update) {
    || KeyFor(id, u) in r.published
    || (k < |r.tasks| && r.tasks[k].id == id && (u in Pending(r.tasks[k]) || Broken(r.tasks[k])))
  }

  /** No step of anybody - another coroutine's call, its failure, any outside caller - takes that back. */
  lemma TakeKeepsOwed(r: Runtime, policy: AgentPolicy, step: Step, k: nat, id: Id, u: Update)
    requires Owed(r, k, id, u) && k < |r.tasks|
    ensures Owed(Take(r, policy, step), k, id, u) && k < |Take(r, policy, step).tasks|
    ensures r.published <= Take(r, policy, step).published
  {
    hide CallAndRead, Apply, GetWorkflow, KeyFor;
    if step.Resume? && step.task < |r.tasks| {
      var task := r.tasks[step.task];
      if !step.fails && Pending(task) != [] {
        assert Pending(task) == [Pending(task)[0]] + Pending(task)[1..];
      }
    }
  }

  lemma {:induction false} StepsKeepOwed(
    r: Runtime, policy: AgentPolicy, steps: seq<Step>, k: nat, id: Id, u: Update)
    requires Owed(r, k, id, u) && k < |r.tasks|
    ensures Owed(TakeAll(r, policy, steps), k, id, u) && k < |TakeAll(r, policy, steps).tasks|
    decreases |steps|
  {
    hide Take, Owed;
    if steps != [] {
      TakeKeepsOwed(r, policy, steps[0], k, id, u);
      StepsKeepOwed(Take(r, policy, steps[0]), policy, steps[1..], k, id, u);
    }
  }

  /** The step is coroutine `k` making its `n`-th service call on a workflow there is. */
  ghost predicate MakesCall(r: Runtime, step: Step, k: nat, n: nat) {
    && step.Resume? && step.task == k < |r.tasks| && n <= 7 && r.tasks[k].phase == Ready(n)
    && r.tasks[k].id in r.service.stores.workflows
  }

  /** The update is in the workflow's stream as the stores have it, and stamped from them. */
  ghost predicate InView(r: Runtime, id: Id, u: Update) {
    id in r.service.stores.workflows && StableUpdate(ViewAt(r.service.stores, id), u)
  }

  /** A call puts everything it is to publish on the coroutine's account, and adds nothing else to the stream. */
  lemma CallOwes(r: Runtime, policy: AgentPolicy, step: Step, k: nat, n: nat, u: Update)
    requires Standing(r) && MakesCall(r, step, k, n)
    ensures var t, id := Take(r, policy, step), r.tasks[k].id;
      && k < |t.tasks| && t.tasks[k].id == id && id in t.service.stores.workflows
      && (InView(t, id, u) ==> if Publishes(n, u.kind) then Owed(t, k, id, u) else InView(r, id, u))
  {
    hide CallAndRead, StableUpdate, Coherent, KeyFor, Publishes;
    KnownHere(r, k);
    CallKeepsCoherent(r.service, r.tasks[k].id, n, policy, step.opClock, step.readClock);
    hide GetWorkflow, Apply, CallOf;
  }

  lemma SettledIsSent(r: Runtime, k: nat, id: Id, u: Update)
    requires OncePerKey(r) && Owed(r, k, id, u) && k < |r.tasks| && r.tasks[k].phase == Succeeded
    ensures TimesSent(r.wire, KeyFor(id, u)) == 1
  {
    SentOnce(r, KeyFor(id, u), |r.wire|);
    assert r.wire[..|r.wire|] == r.wire;
  }

  lemma {:induction false} OnceEverywhere(policy: AgentPolicy, steps: seq<Step>)
    ensures OncePerKey(TakeAll(IDLE, policy, steps))
  {
    hide TakeAll;
    PublishedAtMostOnce(IDLE, policy, steps);
  }

  /** Whatever else happens - other coroutines of the same workflow or of others failing anywhere, outside callers
      moving any workflow at any time - a coroutine that ends in success has published, exactly once per key, every
      update its `n`-th call was to publish: those in the stream right after the call, stamped from the stores, of the
      kinds due. */
  lemma {:induction false} CallIsPublished(
    policy: AgentPolicy, before: seq<Step>, call: Step, after: seq<Step>, k: nat, n: nat, u: Update)
    requires var r := TakeAll(IDLE, policy, before);
      && LegalSteps(IDLE, policy, before) && MakesCall(r, call, k, n)
      && InView(Take(r, policy, call), r.tasks[k].id, u) && Publishes(n, u.kind)
    requires var e := TakeAll(IDLE, policy, before + [call] + after);
      k < |e.tasks| && e.tasks[k].phase == Succeeded
    ensures TimesSent(TakeAll(IDLE, policy, before + [call] + after).wire,
                      KeyFor(TakeAll(IDLE, policy, before).tasks[k].id, u)) == 1
  {
    hide TakeAll, Take, LegalSteps, InView, Owed, KeyFor, Publishes, TimesSent;
    var r := TakeAll(IDLE, policy, before);
    var id := r.tasks[k].id;
    assert Standing(r) by { IdleStands(); StepsKeepStanding(IDLE, policy, before); }
    CallOwes(r, policy, call, k, n, u);
    StepsKeepOwed(Take(r, policy, call), policy, after, k, id, u);
    TakeAllConcat(IDLE, policy, before, [call]);
    TakeOne(r, policy, call);
    TakeAllConcat(IDLE, policy, before + [call], after);
    OnceEverywhere(policy, before + [call] + after);
    SettledIsSent(TakeAll(IDLE, policy, before + [call] + after), k, id, u);
  }

  lemma IdleStands()
    ensures Standing(IDLE)
  {
  }

  // ---------------------------------------------------------------- the last run of a workflow

  /** The step moves the workflow on: a service call on it, by a coroutine or by anybody else. */
  ghost predicate Moves(r: Runtime, step: Step, id: Id) {
    match step
    case Spawn(_) => false
    case Outside(op) => op.id == id && !op.ReadStream?
    case Resume(k, fails, _, _) =>
      && k < |r.tasks| && r.tasks[k].id == id
      && (r.tasks[k].phase.Ready? || (fails && (r.tasks[k].phase.Broadcasting? || r.tasks[k].phase.PlaceholderDue?)))
  }

  /** None of the steps moves the workflow on. */
  ghost predicate Still(r: Runtime, policy: AgentPolicy, steps: seq<Step>, id: Id)
    decreases |steps|
  {
    steps == [] || (!Moves(r, steps[0], id) && Still(Take(r, policy, steps[0]), policy, steps[1..], id))
  }

  lemma OtherCallKeepsRecord(
    s: State, other: Id, n: nat, policy: AgentPolicy, opClock: seq<Timestamp>, readClock: seq<Timestamp>, id: Id)
    requires Coherent(s) && other in s.stores.workflows && other != LATEST && n <= 7 && other != id
    ensures SameFor(s.stores, CallAndRead(s, CallOf(other, n, policy, opClock), n, readClock).0.stores, id)
  {
    var op := CallOf(other, n, policy, opClock);
    KnownStays(s, other, op);
    GetConcrete(s.stores, other);
    CallAdds(s, other, n, policy, opClock);
    CallReadsAll(s, op, n, readClock);
    UntouchedKept(s, op, id);
  }

  lemma StillStep(r: Runtime, policy: AgentPolicy, step: Step, id: Id)
    requires Standing(r) && LegalStep(r, step) && !Moves(r, step, id) && id in r.service.stores.workflows
    ensures SameFor(r.service.stores, Take(r, policy, step).service.stores, id)
  {
    hide CallAndRead, Coherent, Apply, GetWorkflow;
    match step {
      case Spawn(_) =>
      case Outside(op) => OutsideElsewhere(r.service, op, id);
      case Resume(k, fails, opClock, readClock) =>
        if k < |r.tasks| && r.tasks[k].id != id {
          var task := r.tasks[k];
          FailService(r, id, k, opClock, readClock);
          KnownHere(r, k);
          if task.phase.Ready? && task.id in r.service.stores.workflows {
            OtherCallKeepsRecord(r.service, task.id, task.phase.n, policy, opClock, readClock, id);
          }
        }
    }
  }

  lemma OutsideElsewhere(s: State, op: Op, id: Id)
    requires Coherent(s) && Legal(s, op) && op.id != LATEST && (op.id != id || op.ReadStream?)
    ensures SameFor(s.stores, Apply(s, op).stores, id)
  {
    UntouchedKept(s, op, id);
  }

  /** While nobody moves the workflow its stream stays the same. */
  lemma {:induction false} StillKeepsView(r: Runtime, policy: AgentPolicy, steps: seq<Step>, id: Id, u: Update)
    requires Standing(r) && LegalSteps(r, policy, steps) && Still(r, policy, steps, id)
    requires id in r.service.stores.workflows
    ensures InView(TakeAll(r, policy, steps), id, u) <==> InView(r, id, u)
    ensures id in TakeAll(r, policy, steps).service.stores.workflows
    decreases |steps|
  {
    hide Standing, Take, StableUpdate, Moves, LegalStep;
    if steps != [] {
      StillStep(r, policy, steps[0], id);
      TakeKeepsStanding(r, policy, steps[0]);
      StillKeepsView(Take(r, policy, steps[0]), policy, steps[1..], id, u);
    }
  }

  /** Coroutine `k` makes its sixth call and its seventh and succeeds; nobody but `k` moves its workflow after the
      sixth. What went before - failed runs of the workflow, broken coroutines, outside callers - is arbitrary, and so
      is what happens to other workflows. */
  ghost predicate LastRun(
    policy: AgentPolicy, before: seq<Step>, six: Step, between: seq<Step>, seven: Step, after: seq<Step>, k: nat,
    id: Id)
  {
    var r6 := TakeAll(IDLE, policy, before);
    var r7 := TakeAll(Take(r6, policy, six), policy, between);
    var e := TakeAll(Take(r7, policy, seven), policy, after);
    && LegalSteps(IDLE, policy, before) && MakesCall(r6, six, k, 6) && r6.tasks[k].id == id
    && LegalSteps(Take(r6, policy, six), policy, between) && Still(Take(r6, policy, six), policy, between, id)
    && MakesCall(r7, seven, k, 7)
    && LegalSteps(Take(r7, policy, seven), policy, after) && Still(Take(r7, policy, seven), policy, after, id)
    && k < |e.tasks| && e.tasks[k].phase == Succeeded
  }

  function Whole(before: seq<Step>, six: Step, between: seq<Step>, seven: Step, after: seq<Step>): seq<Step> {
    before + [six] + between + [seven] + after
  }

  lemma {:induction false} WholeTaken(
    policy: AgentPolicy, before: seq<Step>, six: Step, between: seq<Step>, seven: Step, after: seq<Step>)
    ensures var r6 := TakeAll(IDLE, policy, before);
      var r7 := TakeAll(Take(r6, policy, six), policy, between);
      TakeAll(IDLE, policy, Whole(before, six, between, seven, after))
        == TakeAll(Take(r7, policy, seven), policy, after)
  {
    hide TakeAll, Take;
    var r6 := TakeAll(IDLE, policy, before);
    TakeOne(r6, policy, six);
    TakeAllConcat(IDLE, policy, before, [six]);
    TakeAllConcat(IDLE, policy, before + [six], between);
    TakeOne(TakeAll(Take(r6, policy, six), policy, between), policy, seven);
    TakeAllConcat(IDLE, policy, before + [six] + between, [seven]);
    TakeAllConcat(IDLE, policy, before + [six] + between + [seven], after);
  }

  /** A run that succeeds, and that nobody disturbs after its sixth call, leaves every update of the workflow's final
      stream with a time stamp from the stores on the wire exactly once per key - whatever failed before it. */
  lemma {:induction false} LastRunPublishesAll(
    policy: AgentPolicy, before: seq<Step>, six: Step, between: seq<Step>, seven: Step, after: seq<Step>, k: nat,
    id: Id,
    u: Update)
    requires LastRun(policy, before, six, between, seven, after, k, id)
    requires InView(TakeAll(IDLE, policy, Whole(before, six, between, seven, after)), id, u)
    ensures TimesSent(TakeAll(IDLE, policy, Whole(before, six, between, seven, after)).wire, KeyFor(id, u)) == 1
  {
    hide TakeAll, Take, LegalSteps, InView, Owed, KeyFor, TimesSent, Still, Whole;
    var r6 := TakeAll(IDLE, policy, before);
    var t6 := Take(r6, policy, six);
    var r7 := TakeAll(t6, policy, between);
    var t7 := Take(r7, policy, seven);
    var e := TakeAll(t7, policy, after);
    WholeTaken(policy, before, six, between, seven, after);
    OnceEverywhere(policy, Whole(before, six, between, seven, after));
    assert Standing(r6) by { IdleStands(); StepsKeepStanding(IDLE, policy, before); }
    CallOwes(r6, policy, six, k, 6, u);
    TakeKeepsStanding(r6, policy, six);
    StillKeepsView(t6, policy, between, id, u);
    StepsKeepStanding(t6, policy, between);
    assert r7.tasks[k].id == id by { SameOwner(t6, policy, between, k); }
    CallOwes(r7, policy, seven, k, 7, u);
    TakeKeepsStanding(r7, policy, seven);
    StillKeepsView(t7, policy, after, id, u);
    KindsCovered(u.kind);
    hide Standing, MakesCall, Publishes;
    if Publishes(7, u.kind) {
      StepsKeepOwed(t7, policy, after, k, id, u);
    } else {
      StepsKeepOwed(t6, policy, between, k, id, u);
      TakeKeepsOwed(r7, policy, seven, k, id, u);
      StepsKeepOwed(t7, policy, after, k, id, u);
    }
    SettledIsSent(e, k, id, u);
  }

  lemma KindsCovered(kind: UpdateType)
    ensures Publishes(6, kind) || Publishes(7, kind)
  {
  }

  lemma {:induction false} SameOwner(r: Runtime, policy: AgentPolicy, steps: seq<Step>, k: nat)
    requires k < |r.tasks|
    ensures k < |TakeAll(r, policy, steps).tasks| && TakeAll(r, policy, steps).tasks[k].id == r.tasks[k].id
    decreases |steps|
  {
    hide CallAndRead, Apply, GetWorkflow, KeyFor;
    if steps != [] { SameOwner(Take(r, policy, steps[0]), policy, steps[1..], k); }
  }

  // ---------------------------------------------------------------- what a broken coroutine drops

  /** The update is not published, and no coroutine of its workflow has it, or one of the same key, to publish. */
  ghost predicate Nowhere(r: Runtime, id: Id, u: Update) {
    && KeyFor(id, u) !in r.published
    && forall j, v :: 0 <= j < |r.tasks| && r.tasks[j].id == id && v in Pending(r.tasks[j]) ==>
         KeyFor(id, v) != KeyFor(id, u)
  }

  lemma LoopKeepsNowhere(r: Runtime, policy: AgentPolicy, step: Step, id: Id, u: Update)
    requires Nowhere(r, id, u) && step.Resume? && step.task < |r.tasks| && !Moves(r, step, id)
    ensures Nowhere(Take(r, policy, step), id, u)
  {
    hide CallAndRead, Apply, GetWorkflow, CallOf;
    var t, k := Take(r, policy, step), step.task;
    var task := r.tasks[k];
    assert forall j :: 0 <= j < |r.tasks| ==> t.tasks[j].id == r.tasks[j].id && (j != k ==> t.tasks[j] == r.tasks[j]);
    if task.id == id && !step.fails && Pending(task) != [] {
      assert Pending(task)[0] in Pending(task);
      assert Pending(task) == [Pending(task)[0]] + Pending(task)[1..];
    }
    forall j, v | 0 <= j < |t.tasks| && t.tasks[j].id == id && v in Pending(t.tasks[j])
      ensures KeyFor(id, v) != KeyFor(id, u)
    {
      assert v in Pending(r.tasks[j]);
    }
  }

  /** As long as nobody makes a call on the workflow, what no coroutine has is not published. */
  lemma {:induction false} NeverSent(r: Runtime, policy: AgentPolicy, steps: seq<Step>, id: Id, u: Update)
    requires Nowhere(r, id, u) && Still(r, policy, steps, id)
    ensures Nowhere(TakeAll(r, policy, steps), id, u)
    decreases |steps|
  {
    hide Take, Moves, KeyFor, Pending, Apply;
    if steps != [] {
      var t := Take(r, policy, steps[0]);
      assert Nowhere(t, id, u) by {
        match steps[0] {
          case Resume(k, _, _, _) =>
            if k < |r.tasks| { LoopKeepsNowhere(r, policy, steps[0], id, u); } else { IdleStep(r, policy, steps[0]); }
          case _ => AsideStep(r, policy, steps[0], id, u);
        }
      }
      NeverSent(t, policy, steps[1..], id, u);
    }
  }

  lemma IdleStep(r: Runtime, policy: AgentPolicy, step: Step)
    requires step.Resume? && step.task >= |r.tasks|
    ensures Take(r, policy, step) == r
  {
  }

  lemma AsideStep(r: Runtime, policy: AgentPolicy, step: Step, id: Id, u: Update)
    requires !step.Resume? && Nowhere(r, id, u)
    ensures Nowhere(Take(r, policy, step), id, u)
  {
    hide KeyFor, Apply;
    var t := Take(r, policy, step);
    assert forall j :: 0 <= j < |r.tasks| ==> t.tasks[j] == r.tasks[j];
    assert forall j :: |r.tasks| <= j < |t.tasks| ==> Pending(t.tasks[j]) == [];
  }

  /** Coroutine `k` is in the middle of the broadcasts after a stage; only it has the update, which is not out yet. */
  ghost predicate OnlyInHand(r: Runtime, k: nat, id: Id, u: Update) {
    && k < |r.tasks| && r.tasks[k].id == id && r.tasks[k].phase.Broadcasting? && id in r.service.stores.workflows
    && InView(r, id, u) && !Publishes(7, u.kind) && KeyFor(id, u) !in r.published
    && forall j, v :: 0 <= j < |r.tasks| && j != k && r.tasks[j].id == id && v in Pending(r.tasks[j]) ==>
         KeyFor(id, v) != KeyFor(id, u)
  }

  /** A failure reads the stream again, but only for the kinds of update that come with a lifecycle change. */
  lemma FailReads(s: State, op: Op, readClock: seq<Timestamp>, u: Update)
    ensures u in CallAndRead(s, op, 7, readClock).1 ==> Publishes(7, u.kind)
  {
    hide Publishes;
    var updates := ReadUpdates(Apply(s, op), op.id, readClock).0;
    if updates.Some? { OnlyMembers(updates.value, 7, u); }
  }

  /** The stage, agent and investigation updates of a stream survive a lifecycle transition. */
  lemma FailKeepsStages(s: State, id: Id, clock: seq<Timestamp>, u: Update)
    requires Consistent(s.stores) && id in s.stores.workflows && id != LATEST && !Publishes(7, u.kind)
    requires StableUpdate(ViewAt(s.stores, id), u)
    ensures var t := Apply(s, Transition(id, Failed, clock)).stores; id in t.workflows && StableUpdate(ViewAt(t, id), u)
  {
    hide Apply;
    TransitionEffect(s, id, Failed, clock);
    var v, added := ViewAt(s.stores, id), TransitionEvents(s.stores.workflows[id], Failed, clock);
    StableByKind(v, u);
    KindMembers(v.events, EventType.InvestigationUpdate, InvestigationStreamUpdate, u);
    KindMembers(v.events + added, EventType.InvestigationUpdate, InvestigationStreamUpdate, u);
    assert forall e :: e in v.events ==> e in v.events + added;
    hide TransitionEvents;
  }

  lemma BreakDrops(r: Runtime, policy: AgentPolicy, step: Step, k: nat, id: Id, u: Update)
    requires Standing(r) && OnlyInHand(r, k, id, u) && step.Resume? && step.task == k && step.fails
    ensures Nowhere(Take(r, policy, step), id, u) && InView(Take(r, policy, step), id, u)
  {
    hide StableUpdate, Coherent, Publishes, KeyFor;
    var op := Transition(id, Failed, step.opClock);
    assert Consistent(r.service.stores) by { StandingConsistent(r); }
    KnownHere(r, k);
    FailKeepsStages(r.service, id, step.opClock, u);
    CallReadsAll(r.service, op, 7, step.readClock);
    var updates := CallAndRead(r.service, op, 7, step.readClock).1;
    forall v | v in updates ensures KeyFor(id, v) != KeyFor(id, u) {
      FailReads(r.service, op, step.readClock, v);
      assert v.kind != u.kind;
      SameKeySameKind(id, u, v);
    }
    hide CallAndRead, Apply, GetWorkflow;
  }

  lemma SameKeySameKind(id: Id, u: Update, v: Update)
    ensures KeyFor(id, u) == KeyFor(id, v) ==> u.kind == v.kind
  {
  }

  lemma StandingConsistent(r: Runtime)
    requires Standing(r)
    ensures Consistent(r.service.stores)
  {
  }

  /** The other half: a coroutine that breaks with an update of a stage still to publish, and that nobody else has,
      loses it. It is in the stream and, unless the workflow is moved on and read again, never on the wire. */
  lemma {:induction false} BrokenLosesUpdate(
    policy: AgentPolicy, before: seq<Step>, breaks: Step, after: seq<Step>, k: nat, id: Id, u: Update)
    requires LegalSteps(IDLE, policy, before) && OnlyInHand(TakeAll(IDLE, policy, before), k, id, u)
    requires breaks.Resume? && breaks.task == k && breaks.fails
    requires LegalSteps(Take(TakeAll(IDLE, policy, before), policy, breaks), policy, after)
    requires Still(Take(TakeAll(IDLE, policy, before), policy, breaks), policy, after, id)
    ensures var e := TakeAll(IDLE, policy, before + [breaks] + after);
      InView(e, id, u) && TimesSent(e.wire, KeyFor(id, u)) == 0
  {
    hide TakeAll, Take, LegalSteps, InView, Still, OnlyInHand, KeyFor;
    var r := TakeAll(IDLE, policy, before);
    var t := Take(r, policy, breaks);
    assert Standing(r) by { IdleStands(); StepsKeepStanding(IDLE, policy, before); }
    BreakDrops(r, policy, breaks, k, id, u);
    TakeKeepsStanding(r, policy, breaks);
    NeverSent(t, policy, after, id, u);
    assert id in t.service.stores.workflows by { InViewKnown(t, id, u); }
    StillKeepsView(t, policy, after, id, u);
    TakeAllConcat(IDLE, policy, before, [breaks]);
    TakeOne(r, policy, breaks);
    TakeAllConcat(IDLE, policy, before + [breaks], after);
    var e := TakeAll(t, policy, after);
    OnceEverywhere(policy, before + [breaks] + after);
    hide Standing, Nowhere;
    UnpublishedIsUnsent(e, id, u);
  }

  lemma InViewKnown(r: Runtime, id: Id, u: Update)
    requires InView(r, id, u)
    ensures id in r.service.stores.workflows
  {
  }

  lemma UnpublishedIsUnsent(r: Runtime, id: Id, u: Update)
    requires OncePerKey(r) && Nowhere(r, id, u)
    ensures TimesSent(r.wire, KeyFor(id, u)) == 0
  {
    SentOnce(r, KeyFor(id, u), |r.wire|);
    assert r.wire[..|r.wire|] == r.wire;
  }
}
