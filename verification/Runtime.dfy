/** The asynchronous publisher (backend/runtime.py) as a state machine over the steps between its awaits. */
module Runtime {
  import opened Models
  import opened Stores
  import opened Service

  datatype Key = Key(id: Id, timestamp: Timestamp, kind: UpdateType, message: Message)

  function KeyFor(id: Id, u: Update): Key {
    Key(id, u.timestamp, u.kind, u.message)
  }

  /** One message on the wire; the closing placeholder of a run is sent without a key. */
  datatype Sent = Keyed(id: Id, update: Update) | Placeholder(id: Id)

  /** Where one `run` coroutine stands: about to perform its `n`-th service call (0 starts, 1 to 6 complete the
      stages, 7 completes), or inside the broadcast loop after it with these updates still to go. */
  datatype Phase =
    | Ready(n: nat)
    | Broadcasting(n: nat, pending: seq<Update>)
    | PlaceholderDue
    | Failing(pending: seq<Update>)
    | Succeeded
      /** The failure was recorded and broadcast; the exception goes no further. */
    | Reported
    | Raised

  datatype Task = Task(id: Id, phase: Phase)

  datatype Runtime = Runtime(service: State, published: set<Key>, wire: seq<Sent>, tasks: seq<Task>)

  const IDLE := Runtime(EMPTY, {}, [], [])

  datatype Step =
    | Spawn(id: Id)
      /** Resume a coroutine; `fails` makes the broadcast it waits for raise. */
    | Resume(task: nat, fails: bool, opClock: seq<Timestamp>, readClock: seq<Timestamp>)
      /** Any other caller of the service. */
    | Outside(op: Op)

  /** The update types a coroutine publishes after its `n`-th call. */
  predicate Publishes(n: nat, kind: UpdateType) {
    if 1 <= n <= 6 then kind in {WorkflowEventUpdate, StageUpdate, AgentUpdate, InvestigationStreamUpdate}
    else kind in {WorkflowEventUpdate, LifecycleUpdate, TelemetryStreamUpdate}
  }

  function Only(updates: seq<Update>, n: nat): seq<Update> {
    if updates == [] then []
    else (if Publishes(n, updates[0].kind) then [updates[0]] else []) + Only(updates[1..], n)
  }

  function CallOf(id: Id, n: nat, policy: AgentPolicy, clock: seq<Timestamp>): Op
    requires n <= 7
  {
    if n == 0 then Transition(id, Running, clock)
    else if n <= 6 then CompleteStage(id, WORKFLOW_STAGES[n - 1], policy, clock)
    else Transition(id, Completed, clock)
  }

  /** A service call and the read of the stream that follows it, with no await between them. */
  function CallAndRead(s: State, op: Op, n: nat, readClock: seq<Timestamp>): (State, seq<Update>) {
    var (updates, t) := ReadUpdates(Apply(s, op), op.id, readClock);
    (t, if updates.Some? then Only(updates.value, n) else [])
  }

  function SetPhase(r: Runtime, k: nat, phase: Phase): Runtime
    requires k < |r.tasks|
  {
    r.(tasks := r.tasks[k := r.tasks[k].(phase := phase)])
  }

  /** One turn of the broadcast loop: skip a published key, else record the key and send. */
  function PublishOne(r: Runtime, id: Id, u: Update): Runtime {
    if KeyFor(id, u) in r.published then r
    else r.(published := r.published + {KeyFor(id, u)}, wire := r.wire + [Keyed(id, u)])
  }

  /** A call that raised, or a broadcast that did: record the failure and broadcast that. */
  function Fail(r: Runtime, k: nat, opClock: seq<Timestamp>, readClock: seq<Timestamp>): Runtime
    requires k < |r.tasks|
  {
    var id := r.tasks[k].id;
    if GetWorkflow(r.service.stores, id).None? then SetPhase(r, k, Raised)
    else
      var (s, updates) := CallAndRead(r.service, Transition(id, Failed, opClock), 7, readClock);
      SetPhase(r.(service := s), k, Failing(updates))
  }

  function ResumeTask(
    r: Runtime, policy: AgentPolicy, k: nat, fails: bool, opClock: seq<Timestamp>, readClock: seq<Timestamp>): Runtime
    requires k < |r.tasks|
  {
    var id := r.tasks[k].id;
    match r.tasks[k].phase
    case Ready(n) =>
      if n > 7 || GetWorkflow(r.service.stores, id).None? then Fail(r, k, opClock, readClock)
      else
        var (s, updates) := CallAndRead(r.service, CallOf(id, n, policy, opClock), n, readClock);
        SetPhase(r.(service := s), k, Broadcasting(n, updates))
    case Broadcasting(n, pending) =>
      if fails then Fail(r, k, opClock, readClock)
      else if pending != [] then SetPhase(PublishOne(r, id, pending[0]), k, Broadcasting(n, pending[1..]))
      else if n < 7 then SetPhase(r, k, Ready(n + 1))
      else SetPhase(r, k, PlaceholderDue)
    case PlaceholderDue =>
      var sent := r.(wire := r.wire + [Placeholder(id)]);
      if fails then Fail(sent, k, opClock, readClock) else SetPhase(sent, k, Succeeded)
    case Failing(pending) =>
      if fails then SetPhase(r, k, Raised)
      else if pending != [] then SetPhase(PublishOne(r, id, pending[0]), k, Failing(pending[1..]))
      else SetPhase(r, k, Reported)
    case _ => r
  }

  function Take(r: Runtime, policy: AgentPolicy, step: Step): Runtime {
    match step
    case Spawn(id) => r.(tasks := r.tasks + [Task(id, Ready(0))])
    case Outside(op) => r.(service := Apply(r.service, op))
    case Resume(k, fails, opClock, readClock) =>
      if k < |r.tasks| then ResumeTask(r, policy, k, fails, opClock, readClock) else r
  }

  ghost predicate LegalStep(r: Runtime, step: Step) {
    match step
    case Spawn(id) => id != LATEST
    case Outside(op) => op.id != LATEST && Legal(r.service, op)
    case Resume(_, _, _, _) => true
  }

  ghost predicate LegalSteps(r: Runtime, policy: AgentPolicy, steps: seq<Step>)
    decreases |steps|
  {
    steps == [] || (LegalStep(r, steps[0]) && LegalSteps(Take(r, policy, steps[0]), policy, steps[1..]))
  }

  function TakeAll(r: Runtime, policy: AgentPolicy, steps: seq<Step>): Runtime
    decreases |steps|
  {
    if steps == [] then r else TakeAll(Take(r, policy, steps[0]), policy, steps[1..])
  }

  lemma {:induction false} TakeAllConcat(r: Runtime, policy: AgentPolicy, a: seq<Step>, b: seq<Step>)
    ensures TakeAll(r, policy, a + b) == TakeAll(TakeAll(r, policy, a), policy, b)
    decreases |a|
  {
    hide Take;
    if a == [] {
      assert a + b == b;
    } else {
      TakeAllConcat(Take(r, policy, a[0]), policy, a[1..], b);
      assert (a + b)[1..] == a[1..] + b;
    }
  }

  lemma {:induction false} TakeOne(r: Runtime, policy: AgentPolicy, step: Step)
    ensures TakeAll(r, policy, [step]) == Take(r, policy, step)
  {
    hide Take;
    assert [step][1..] == [];
  }

  lemma {:induction false} TakeNone(r: Runtime, policy: AgentPolicy)
    ensures TakeAll(r, policy, []) == r
  {
  }

  // ---------------------------------------------------------------- at most once

  /** The published set is exactly the keys on the wire, and no key is on the wire twice. */
  ghost predicate OncePerKey(r: Runtime) {
    && (forall key :: key in r.published <==>
          exists i :: 0 <= i < |r.wire| && r.wire[i].Keyed? && KeyFor(r.wire[i].id, r.wire[i].update) == key)
    && (forall i, j :: 0 <= i < j < |r.wire| && r.wire[i].Keyed? && r.wire[j].Keyed? ==>
          KeyFor(r.wire[i].id, r.wire[i].update) != KeyFor(r.wire[j].id, r.wire[j].update))
  }

  lemma PublishOneOnce(r: Runtime, id: Id, u: Update)
    requires OncePerKey(r)
    ensures OncePerKey(PublishOne(r, id, u))
    ensures KeyFor(id, u) in PublishOne(r, id, u).published && r.published <= PublishOne(r, id, u).published
  {
    var t := PublishOne(r, id, u);
    if KeyFor(id, u) !in r.published {
      forall key
        ensures key in t.published <==>
          exists i :: 0 <= i < |t.wire| && t.wire[i].Keyed? && KeyFor(t.wire[i].id, t.wire[i].update) == key
      {
        if key == KeyFor(id, u) {
          assert t.wire[|r.wire|] == Keyed(id, u);
        } else if key in r.published {
          var i :| 0 <= i < |r.wire| && r.wire[i].Keyed? && KeyFor(r.wire[i].id, r.wire[i].update) == key;
          assert t.wire[i] == r.wire[i];
        }
      }
    }
  }

  lemma SameWireOnce(r: Runtime, t: Runtime)
    requires OncePerKey(r) && t.published == r.published
    requires t.wire == r.wire || (exists id :: t.wire == r.wire + [Placeholder(id)])
    ensures OncePerKey(t)
  {
    forall key | key in r.published
      ensures exists i :: 0 <= i < |t.wire| && t.wire[i].Keyed? && KeyFor(t.wire[i].id, t.wire[i].update) == key
    {
      var i :| 0 <= i < |r.wire| && r.wire[i].Keyed? && KeyFor(r.wire[i].id, r.wire[i].update) == key;
      assert t.wire[i] == r.wire[i];
    }
  }

  lemma TakeOnce(r: Runtime, policy: AgentPolicy, step: Step)
    requires OncePerKey(r)
    ensures OncePerKey(Take(r, policy, step))
  {
    hide CallAndRead, OncePerKey, Apply;
    if step.Resume? && step.task < |r.tasks| {
      var task := r.tasks[step.task];
      var t := Take(r, policy, step);
      if (task.phase.Broadcasting? || task.phase.Failing?) && !step.fails && task.phase.pending != [] {
        PublishOneOnce(r, task.id, task.phase.pending[0]);
        SameWireOnce(PublishOne(r, task.id, task.phase.pending[0]), t);
      } else {
        SameWireOnce(r, t);
      }
    } else {
      SameWireOnce(r, Take(r, policy, step));
    }
  }

  /** However the coroutines interleave, and whatever raises, no update key is published twice. */
  lemma {:induction false} PublishedAtMostOnce(r: Runtime, policy: AgentPolicy, steps: seq<Step>)
    requires OncePerKey(r)
    ensures OncePerKey(TakeAll(r, policy, steps))
    decreases |steps|
  {
    hide Take, OncePerKey;
    if steps != [] {
      TakeOnce(r, policy, steps[0]);
      PublishedAtMostOnce(Take(r, policy, steps[0]), policy, steps[1..]);
    }
  }
}
