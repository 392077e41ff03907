/** The publisher as the object it is (backend/runtime.py): one coroutine run to its end, and that this is one of the
    interleavings. */
module Publisher {
  import opened Wrappers
  import opened Models
  import opened Stores
  import opened Service
  import opened Runtime
  import opened Publication
  import StreamCache

  /** What the environment does during one run: the clock readings of the calls and the reads after them, and how many
      messages the broadcaster takes after each call before it raises at the next. The last entry of each list is for
      the handler that records a failure. */
  datatype Script = Script(
    opClocks: seq<seq<Timestamp>>, readClocks: seq<seq<Timestamp>>, limits: seq<nat>, placeholderRaises: bool)
  {
    predicate Valid() { |opClocks| == |readClocks| == |limits| == 9 }
  }

  /** The broadcast loop over a list of updates; false if a broadcast raised. The key is recorded before the message is
      handed over. */
  function BroadcastAll(r: Runtime, id: Id, updates: seq<Update>, limit: nat): (result: (Runtime, bool))
    ensures result.0.service == r.service && result.0.tasks == r.tasks
    decreases |updates|
  {
    if updates == [] then (r, true)
    else if KeyFor(id, updates[0]) in r.published then BroadcastAll(r, id, updates[1..], limit)
    else if limit == 0 then (PublishOne(r, id, updates[0]), false)
    else BroadcastAll(PublishOne(r, id, updates[0]), id, updates[1..], limit - 1)
  }

  /** The handler of `run`: record the failure and broadcast that; what raises in it goes on to the caller. */
  function HandleFailure(r: Runtime, id: Id, script: Script): (result: (Runtime, Phase))
    requires script.Valid()
    ensures result.0.tasks == r.tasks
  {
    if GetWorkflow(r.service.stores, id).None? then (r, Raised)
    else
      var (s, updates) := CallAndRead(r.service, Transition(id, Failed, script.opClocks[8]), 7, script.readClocks[8]);
      var (t, ok) := BroadcastAll(r.(service := s), id, updates, script.limits[8]);
      (t, if ok then Reported else Raised)
  }

  /** A run from its `n`-th call on, and how it ends. */
  function RunFrom(r: Runtime, id: Id, policy: AgentPolicy, script: Script, n: nat): (result: (Runtime, Phase))
    requires script.Valid() && n <= 8
    ensures result.0.tasks == r.tasks
    decreases 8 - n
  {
    if n == 8 then
      var t := r.(wire := r.wire + [Placeholder(id)]);
      if script.placeholderRaises then HandleFailure(t, id, script) else (t, Succeeded)
    else if GetWorkflow(r.service.stores, id).None? then HandleFailure(r, id, script)
    else
      var (s, updates) := CallAndRead(r.service, CallOf(id, n, policy, script.opClocks[n]), n, script.readClocks[n]);
      var (t, ok) := BroadcastAll(r.(service := s), id, updates, script.limits[n]);
      if ok then RunFrom(t, id, policy, script, n + 1) else HandleFailure(t, id, script)
  }

  class OrchestrationRuntime {
    const service: OrchestrationService
    var publishedUpdates: set<Key>
    var wire: seq<Sent>

    /** The object as a state of the machine, without coroutines. */
    function Value(): Runtime
      reads this, service
    {
      Runtime(service.Current(), publishedUpdates, wire, [])
    }

    constructor (service: OrchestrationService)
      ensures this.service == service && publishedUpdates == {} && wire == []
    {
      this.service, publishedUpdates, wire := service, {}, [];
    }

    /** `_broadcast_new` after the `n`-th call: the updates of the kinds due, each key once, until one raises. */
    method BroadcastNew(id: Id, n: nat, readClock: seq<Timestamp>, limit: nat) returns (ok: bool)
      modifies this, service
      ensures var (updates, s) := ReadUpdates(old(service.Current()), id, readClock);
        (Value(), ok) == BroadcastAll(old(Value()).(service := s), id,
                                      if updates.Some? then Only(updates.value, n) else [], limit)
    {
      hide ReadUpdates, Only;
      var read := service.GetStreamUpdates(id, readClock);
      var updates := if read.Some? then Only(read.value, n) else [];
      ghost var all := BroadcastAll(Value(), id, updates, limit);
      ghost var settled := service.Current();
      var left := limit;
      for i := 0 to |updates|
        invariant service.Current() == settled && BroadcastAll(Value(), id, updates[i..], left) == all
      {
        assert updates[i..][1..] == updates[i + 1..];
        var key := KeyFor(id, updates[i]);
        if key in publishedUpdates { continue; }
        publishedUpdates := publishedUpdates + {key};
        wire := wire + [Keyed(id, updates[i])];
        if left == 0 { return false; }
        left := left - 1;
      }
      assert updates[|updates|..] == [];
      ok := true;
    }

    /** The handler around `run`. */
    method RecordFailure(id: Id, script: Script) returns (end: Phase)
      requires script.Valid()
      modifies this, service
      ensures (Value(), end) == HandleFailure(old(Value()), id, script)
    {
      hide Apply, ReadUpdates, Only, BroadcastAll;
      ghost var before := Value();
      var step := service.TransitionWorkflow(id, Failed, script.opClocks[8]);
      if step.None? {
        UnknownApply(before.service, Transition(id, Failed, script.opClocks[8]));
        return Raised;
      }
      var ok := BroadcastNew(id, 7, script.readClocks[8], script.limits[8]);
      end := if ok then Reported else Raised;
    }

    /** The `n`-th call of a run: start, a stage, or complete. */
    method Call(id: Id, n: nat, clock: seq<Timestamp>) returns (found: bool)
      requires n <= 7
      modifies service
      ensures service.Current() == Apply(old(service.Current()), CallOf(id, n, service.policy, clock))
      ensures found <==> old(GetWorkflow(service.Current().stores, id)).Some?
    {
      hide Apply;
      var step: Option<Workflow>;
      if n == 0 {
        step := service.TransitionWorkflow(id, Running, clock);
      } else if n <= 6 {
        step := service.TransitionStage(id, WORKFLOW_STAGES[n - 1], clock);
      } else {
        step := service.TransitionWorkflow(id, Completed, clock);
      }
      found := step.Some?;
    }

    /** A call and its broadcasts; false if either raised. */
    method CallAndBroadcast(id: Id, n: nat, script: Script) returns (ok: bool)
      requires script.Valid() && n <= 7
      modifies this, service
      ensures RunFrom(old(Value()), id, service.policy, script, n)
           == if ok then RunFrom(Value(), id, service.policy, script, n + 1) else HandleFailure(Value(), id, script)
    {
      hide Apply, ReadUpdates, Only, BroadcastAll, HandleFailure;
      ghost var before := Value();
      var found := Call(id, n, script.opClocks[n]);
      if !found {
        UnknownApply(before.service, CallOf(id, n, service.policy, script.opClocks[n]));
        return false;
      }
      ok := BroadcastNew(id, n, script.readClocks[n], script.limits[n]);
    }

    /** `run`: eight calls, each with its broadcasts, then the placeholder; what raises is handed to the handler. */
    method Run(id: Id, script: Script) returns (end: Phase)
      requires script.Valid()
      modifies this, service
      ensures (Value(), end) == RunFrom(old(Value()), id, service.policy, script, 0)
    {
      hide HandleFailure, CallAndRead, BroadcastAll;
      ghost var all := RunFrom(Value(), id, service.policy, script, 0);
      var ok := CallAndBroadcast(id, 0, script);
      if !ok { end := RecordFailure(id, script); return; }
      for i := 0 to |WORKFLOW_STAGES|
        invariant RunFrom(Value(), id, service.policy, script, i + 1) == all
      {
        ok := CallAndBroadcast(id, i + 1, script);
        if !ok { end := RecordFailure(id, script); return; }
      }
      ok := CallAndBroadcast(id, 7, script);
      if !ok { end := RecordFailure(id, script); return; }
      wire := wire + [Placeholder(id)];
      if script.placeholderRaises { end := RecordFailure(id, script); return; }
      end := Succeeded;
    }
  }

  // ---------------------------------------------------------------- a run alone is one of the interleavings

  /** Nothing but coroutine `k` going on. */
  ghost predicate OnlyResumes(steps: seq<Step>, k: nat) {
    forall i :: 0 <= i < |steps| ==> steps[i].Resume? && steps[i].task == k
  }

  /** A machine whose coroutine `k` stands at `phase`, otherwise like `r`. */
  function At(r: Runtime, k: nat, phase: Phase): Runtime {
    if k < |r.tasks| then SetPhase(r, k, phase) else r
  }

  lemma Joined(m: Runtime, policy: AgentPolicy, k: nat, a: seq<Step>, b: seq<Step>) returns (steps: seq<Step>)
    requires OnlyResumes(a, k) && OnlyResumes(b, k)
    ensures OnlyResumes(steps, k) && TakeAll(m, policy, steps) == TakeAll(TakeAll(m, policy, a), policy, b)
  {
    TakeAllConcat(m, policy, a, b);
    steps := a + b;
  }

  lemma Then(m: Runtime, policy: AgentPolicy, k: nat, step: Step, more: seq<Step>) returns (steps: seq<Step>)
    requires step.Resume? && step.task == k && OnlyResumes(more, k)
    ensures OnlyResumes(steps, k) && TakeAll(m, policy, steps) == TakeAll(Take(m, policy, step), policy, more)
  {
    hide Take;
    TakeOne(m, policy, step);
    steps := Joined(m, policy, k, [step], more);
  }

  /** In a broadcast loop: of the handler, or after the `n`-th call. */
  function InLoop(handler: bool, n: nat, pending: seq<Update>): Phase {
    if handler then Failing(pending) else Broadcasting(n, pending)
  }

  lemma LoopStep(r: Runtime, policy: AgentPolicy, k: nat, handler: bool, n: nat, pending: seq<Update>)
    requires k < |r.tasks| && pending != []
    ensures Take(At(r, k, InLoop(handler, n, pending)), policy, Resume(k, false, [], []))
         == At(PublishOne(r, r.tasks[k].id, pending[0]), k, InLoop(handler, n, pending[1..]))
  {
    hide KeyFor, CallAndRead, GetWorkflow;
  }

  /** The loop goes as far as the broadcaster lets it. */
  lemma {:induction false} LoopSteps(
    r: Runtime, policy: AgentPolicy, k: nat, handler: bool, n: nat, pending: seq<Update>, limit: nat)
    returns (steps: seq<Step>, rest: seq<Update>)
    requires k < |r.tasks|
    ensures OnlyResumes(steps, k)
    ensures var (t, ok) := BroadcastAll(r, r.tasks[k].id, pending, limit);
      TakeAll(At(r, k, InLoop(handler, n, pending)), policy, steps) == At(t, k, InLoop(handler, n, rest))
      && (ok ==> rest == [])
    decreases |pending|
  {
    hide Take, TakeAll, KeyFor;
    var m := At(r, k, InLoop(handler, n, pending));
    if pending == [] {
      steps, rest := [], [];
      TakeNone(m, policy);
    } else {
      var id, step := r.tasks[k].id, Resume(k, false, [], []);
      var next := PublishOne(r, id, pending[0]);
      LoopStep(r, policy, k, handler, n, pending);
      TakeOne(m, policy, step);
      if KeyFor(id, pending[0]) !in r.published && limit == 0 {
        steps, rest := [step], pending[1..];
      } else {
        var less := if KeyFor(id, pending[0]) in r.published then limit else limit - 1;
        var more, left := LoopSteps(next, policy, k, handler, n, pending[1..], less);
        TakeAllConcat(m, policy, [step], more);
        steps, rest := [step] + more, left;
      }
    }
  }

  lemma HandlerLoop(r: Runtime, policy: AgentPolicy, k: nat, updates: seq<Update>, limit: nat)
    returns (steps: seq<Step>)
    requires k < |r.tasks|
    ensures OnlyResumes(steps, k)
    ensures var (t, ok) := BroadcastAll(r, r.tasks[k].id, updates, limit);
      TakeAll(At(r, k, Failing(updates)), policy, steps) == At(t, k, if ok then Reported else Raised)
  {
    hide Take, TakeAll, BroadcastAll, At, OnlyResumes;
    var (t, ok) := BroadcastAll(r, r.tasks[k].id, updates, limit);
    var loop, rest := LoopSteps(r, policy, k, true, 7, updates, limit);
    HandlerClose(t, policy, k, rest, ok);
    var close := Last(At(t, k, Failing(rest)), policy, k, Resume(k, !ok, [], []));
    steps := Joined(At(r, k, Failing(updates)), policy, k, loop, close);
  }

  lemma Last(m: Runtime, policy: AgentPolicy, k: nat, step: Step) returns (steps: seq<Step>)
    requires step.Resume? && step.task == k
    ensures OnlyResumes(steps, k) && TakeAll(m, policy, steps) == Take(m, policy, step)
  {
    hide Take;
    TakeOne(m, policy, step);
    steps := [step];
  }

  /** After a broadcast that raised, wherever the coroutine stood, the handler runs. */
  lemma HandlerSteps(m: Runtime, r: Runtime, policy: AgentPolicy, k: nat, phase: Phase, script: Script)
    returns (steps: seq<Step>)
    requires k < |r.tasks| && script.Valid()
    requires Take(m, policy, Resume(k, true, script.opClocks[8], script.readClocks[8]))
          == Fail(At(r, k, phase), k, script.opClocks[8], script.readClocks[8])
    ensures OnlyResumes(steps, k)
    ensures var (t, end) := HandleFailure(r, r.tasks[k].id, script);
      TakeAll(m, policy, steps) == At(t, k, end)
  {
    var id := r.tasks[k].id;
    var raise := Resume(k, true, script.opClocks[8], script.readClocks[8]);
    FailIs(r, k, phase, script.opClocks[8], script.readClocks[8]);
    hide Take, TakeAll, CallAndRead, BroadcastAll, GetWorkflow, Fail, At, OnlyResumes;
    if GetWorkflow(r.service.stores, id).None? {
      steps := Last(m, policy, k, raise);
    } else {
      var (s, updates) := CallAndRead(r.service, Transition(id, Failed, script.opClocks[8]), 7, script.readClocks[8]);
      var more := HandlerLoop(r.(service := s), policy, k, updates, script.limits[8]);
      steps := Then(m, policy, k, raise, more);
    }
  }

  lemma FailIs(r: Runtime, k: nat, phase: Phase, opClock: seq<Timestamp>, readClock: seq<Timestamp>)
    requires k < |r.tasks|
    ensures var id := r.tasks[k].id;
      Fail(At(r, k, phase), k, opClock, readClock)
        == if GetWorkflow(r.service.stores, id).None? then At(r, k, Raised)
           else var (s, updates) := CallAndRead(r.service, Transition(id, Failed, opClock), 7, readClock);
                At(r.(service := s), k, Failing(updates))
  {
    hide CallAndRead, GetWorkflow;
  }

  lemma HandlerClose(r: Runtime, policy: AgentPolicy, k: nat, rest: seq<Update>, ok: bool)
    requires k < |r.tasks| && (ok ==> rest == [])
    ensures Take(At(r, k, Failing(rest)), policy, Resume(k, !ok, [], [])) == At(r, k, if ok then Reported else Raised)
  {
    hide CallAndRead, GetWorkflow;
  }

  /** Where a resumption that raises leads to the handler. */
  lemma RaisesAt(
    r: Runtime, policy: AgentPolicy, k: nat, phase: Phase, opClock: seq<Timestamp>, readClock: seq<Timestamp>)
    requires k < |r.tasks|
    requires phase.Broadcasting? || (phase.Ready? && GetWorkflow(r.service.stores, r.tasks[k].id).None?)
    ensures Take(At(r, k, phase), policy, Resume(k, true, opClock, readClock))
         == Fail(At(r, k, phase), k, opClock, readClock)
  {
    hide CallAndRead, GetWorkflow, Fail;
  }

  lemma CallStep(
    r: Runtime, policy: AgentPolicy, k: nat, n: nat, opClock: seq<Timestamp>, readClock: seq<Timestamp>)
    requires k < |r.tasks| && n <= 7 && GetWorkflow(r.service.stores, r.tasks[k].id).Some?
    ensures var (s, updates) := CallAndRead(r.service, CallOf(r.tasks[k].id, n, policy, opClock), n, readClock);
      Take(At(r, k, Ready(n)), policy, Resume(k, false, opClock, readClock))
        == At(r.(service := s), k, Broadcasting(n, updates))
  {
    hide CallAndRead, GetWorkflow;
  }

  lemma CloseStep(r: Runtime, policy: AgentPolicy, k: nat, n: nat)
    requires k < |r.tasks|
    ensures Take(At(r, k, Broadcasting(n, [])), policy, Resume(k, false, [], []))
         == At(r, k, if n < 7 then Ready(n + 1) else PlaceholderDue)
  {
    hide CallAndRead, GetWorkflow;
  }

  /** The loop after the `n`-th call, up to the point where it ends or raises. */
  lemma CallLoop(r: Runtime, policy: AgentPolicy, k: nat, n: nat, updates: seq<Update>, limit: nat)
    returns (steps: seq<Step>, rest: seq<Update>)
    requires k < |r.tasks| && n <= 7
    ensures OnlyResumes(steps, k)
    ensures var (t, ok) := BroadcastAll(r, r.tasks[k].id, updates, limit);
      TakeAll(At(r, k, Broadcasting(n, updates)), policy, steps)
        == At(t, k, if !ok then Broadcasting(n, rest) else if n < 7 then Ready(n + 1) else PlaceholderDue)
  {
    hide Take, TakeAll, BroadcastAll, At, OnlyResumes;
    var (t, ok) := BroadcastAll(r, r.tasks[k].id, updates, limit);
    steps, rest := LoopSteps(r, policy, k, false, n, updates, limit);
    if ok {
      CloseStep(t, policy, k, n);
      var close := Last(At(t, k, Broadcasting(n, [])), policy, k, Resume(k, false, [], []));
      steps := Joined(At(r, k, Broadcasting(n, updates)), policy, k, steps, close);
    }
  }

  lemma CallSteps(r: Runtime, policy: AgentPolicy, k: nat, n: nat, script: Script)
    returns (steps: seq<Step>, rest: seq<Update>)
    requires k < |r.tasks| && n <= 7 && script.Valid() && GetWorkflow(r.service.stores, r.tasks[k].id).Some?
    ensures OnlyResumes(steps, k)
    ensures var id := r.tasks[k].id;
      var (s, updates) := CallAndRead(r.service, CallOf(id, n, policy, script.opClocks[n]), n, script.readClocks[n]);
      var (t, ok) := BroadcastAll(r.(service := s), id, updates, script.limits[n]);
      TakeAll(At(r, k, Ready(n)), policy, steps)
        == At(t, k, if !ok then Broadcasting(n, rest) else if n < 7 then Ready(n + 1) else PlaceholderDue)
  {
    var id := r.tasks[k].id;
    CallStep(r, policy, k, n, script.opClocks[n], script.readClocks[n]);
    hide Take, TakeAll, CallAndRead, BroadcastAll, GetWorkflow, At, OnlyResumes;
    var (s, updates) := CallAndRead(r.service, CallOf(id, n, policy, script.opClocks[n]), n, script.readClocks[n]);
    var more, left := CallLoop(r.(service := s), policy, k, n, updates, script.limits[n]);
    rest := left;
    steps := Then(At(r, k, Ready(n)), policy, k, Resume(k, false, script.opClocks[n], script.readClocks[n]), more);
  }

  lemma PlaceholderStep(r: Runtime, policy: AgentPolicy, k: nat, opClock: seq<Timestamp>, readClock: seq<Timestamp>)
    requires k < |r.tasks|
    ensures var sent := r.(wire := r.wire + [Placeholder(r.tasks[k].id)]);
      Take(At(r, k, PlaceholderDue), policy, Resume(k, false, [], [])) == At(sent, k, Succeeded)
      && Take(At(r, k, PlaceholderDue), policy, Resume(k, true, opClock, readClock))
         == Fail(At(sent, k, PlaceholderDue), k, opClock, readClock)
  {
    hide CallAndRead, GetWorkflow;
  }

  lemma {:induction false} RunsOn(r: Runtime, id: Id, policy: AgentPolicy, script: Script, n: nat)
    requires script.Valid() && n <= 7 && GetWorkflow(r.service.stores, id).Some?
    ensures
      var (s, updates) := CallAndRead(r.service, CallOf(id, n, policy, script.opClocks[n]), n, script.readClocks[n]);
      var (t, ok) := BroadcastAll(r.(service := s), id, updates, script.limits[n]);
      RunFrom(r, id, policy, script, n) == Rest(t, ok, id, policy, script, n)
  {
    hide CallAndRead, BroadcastAll, GetWorkflow, HandleFailure;
  }

  lemma {:induction false} RunsNot(r: Runtime, id: Id, policy: AgentPolicy, script: Script, n: nat)
    requires script.Valid() && n <= 7 && GetWorkflow(r.service.stores, id).None?
    ensures RunFrom(r, id, policy, script, n) == HandleFailure(r, id, script)
  {
    hide CallAndRead, BroadcastAll, GetWorkflow, HandleFailure;
  }

  /** What is left of a run after the call and its broadcasts. */
  function Rest(t: Runtime, ok: bool, id: Id, policy: AgentPolicy, script: Script, n: nat): (Runtime, Phase)
    requires script.Valid() && n <= 7
  {
    if ok then RunFrom(t, id, policy, script, n + 1) else HandleFailure(t, id, script)
  }

  /** From its `n`-th call on the machine can take coroutine `k` to exactly where the run ends. */
  lemma {:induction false} RunSteps(r: Runtime, policy: AgentPolicy, k: nat, script: Script, n: nat)
    returns (steps: seq<Step>)
    requires k < |r.tasks| && script.Valid() && n <= 8
    ensures OnlyResumes(steps, k)
    ensures var (t, end) := RunFrom(r, r.tasks[k].id, policy, script, n);
      TakeAll(At(r, k, if n < 8 then Ready(n) else PlaceholderDue), policy, steps) == At(t, k, end)
    decreases 8 - n, 1
  {
    hide Take, TakeAll, CallAndRead, BroadcastAll, GetWorkflow, At, HandleFailure, Fail, RunFrom, Rest, OnlyResumes;
    var id := r.tasks[k].id;
    if n == 8 {
      steps := PlaceholderSteps(r, policy, k, script);
    } else if GetWorkflow(r.service.stores, id).None? {
      RunsNot(r, id, policy, script, n);
      RaisesAt(r, policy, k, Ready(n), script.opClocks[8], script.readClocks[8]);
      steps := HandlerSteps(At(r, k, Ready(n)), r, policy, k, Ready(n), script);
    } else {
      RunsOn(r, id, policy, script, n);
      var (s, updates) := CallAndRead(r.service, CallOf(id, n, policy, script.opClocks[n]), n, script.readClocks[n]);
      var (t, ok) := BroadcastAll(r.(service := s), id, updates, script.limits[n]);
      var call, rest := CallSteps(r, policy, k, n, script);
      var more := RestSteps(t, ok, policy, k, rest, script, n);
      steps := Joined(At(r, k, Ready(n)), policy, k, call, more);
    }
  }

  lemma {:induction false} RestSteps(
    t: Runtime, ok: bool, policy: AgentPolicy, k: nat, rest: seq<Update>, script: Script, n: nat)
    returns (steps: seq<Step>)
    requires k < |t.tasks| && script.Valid() && n <= 7
    ensures OnlyResumes(steps, k)
    ensures var (u, end) := Rest(t, ok, t.tasks[k].id, policy, script, n);
      TakeAll(At(t, k, if !ok then Broadcasting(n, rest) else if n < 7 then Ready(n + 1) else PlaceholderDue), policy,
              steps) == At(u, k, end)
    decreases 8 - n, 0
  {
    hide Take, TakeAll, GetWorkflow, At, HandleFailure, Fail, RunFrom, OnlyResumes;
    if ok {
      steps := RunSteps(t, policy, k, script, n + 1);
    } else {
      RaisesAt(t, policy, k, Broadcasting(n, rest), script.opClocks[8], script.readClocks[8]);
      steps := HandlerSteps(At(t, k, Broadcasting(n, rest)), t, policy, k, Broadcasting(n, rest), script);
    }
  }

  lemma PlaceholderSteps(r: Runtime, policy: AgentPolicy, k: nat, script: Script) returns (steps: seq<Step>)
    requires k < |r.tasks| && script.Valid()
    ensures OnlyResumes(steps, k)
    ensures var (t, end) := RunFrom(r, r.tasks[k].id, policy, script, 8);
      TakeAll(At(r, k, PlaceholderDue), policy, steps) == At(t, k, end)
  {
    var sent := r.(wire := r.wire + [Placeholder(r.tasks[k].id)]);
    PlaceholderStep(r, policy, k, script.opClocks[8], script.readClocks[8]);
    hide Take, CallAndRead, BroadcastAll, GetWorkflow, At, HandleFailure, Fail, TakeAll;
    if script.placeholderRaises {
      steps := HandlerSteps(At(r, k, PlaceholderDue), sent, policy, k, PlaceholderDue, script);
    } else {
      var step := Resume(k, false, [], []);
      TakeOne(At(r, k, PlaceholderDue), policy, step);
      steps := [step];
    }
  }

  lemma {:induction false} ResumesAreLegal(r: Runtime, policy: AgentPolicy, steps: seq<Step>, k: nat)
    requires OnlyResumes(steps, k)
    ensures LegalSteps(r, policy, steps)
    decreases |steps|
  {
    hide Take;
    if steps != [] { ResumesAreLegal(Take(r, policy, steps[0]), policy, steps[1..], k); }
  }

  // ---------------------------------------------------------------- one workflow, one coroutine

  /** The publisher when `create` is all that has happened. */
  function Created(create: Op): Runtime {
    Runtime(Apply(EMPTY, create), {}, [], [])
  }

  lemma CreatedIsKnown(create: Op)
    requires create.Create? && create.id != LATEST
    ensures Legal(EMPTY, create) && GetWorkflow(Apply(EMPTY, create).stores, create.id).Some?
  {
    PerformTwo(EMPTY, Writes(EMPTY.stores, create)[0], Writes(EMPTY.stores, create)[1]);
  }

  lemma {:induction false} Opened(create: Op, policy: AgentPolicy, rest: seq<Step>)
    requires create.Create? && create.id != LATEST && OnlyResumes(rest, 0)
    ensures var opening := [Outside(create), Spawn(create.id)];
      TakeAll(IDLE, policy, opening) == Created(create).(tasks := [Task(create.id, Ready(0))])
      && LegalSteps(IDLE, policy, opening + rest)
  {
    CreatedIsKnown(create);
    hide Apply;
    var opening := [Outside(create), Spawn(create.id)];
    var r1 := Take(IDLE, policy, opening[0]);
    var r2 := Take(r1, policy, opening[1]);
    TakeNone(r2, policy);
    assert TakeAll(r1, policy, [Spawn(create.id)]) == r2;
    assert opening[1..] == [Spawn(create.id)] && opening[1..][1..] == [];
    ResumesAreLegal(r2, policy, rest, 0);
    assert (opening + rest)[1..] == [Spawn(create.id)] + rest && ([Spawn(create.id)] + rest)[1..] == rest;
    assert LegalSteps(r1, policy, [Spawn(create.id)] + rest);
  }

  lemma {:induction false} BroadcastIgnoresTasks(a: Runtime, b: Runtime, id: Id, updates: seq<Update>, limit: nat)
    requires b == a.(tasks := b.tasks)
    ensures var (s, t) := (BroadcastAll(a, id, updates, limit), BroadcastAll(b, id, updates, limit));
      t == (s.0.(tasks := b.tasks), s.1)
    decreases |updates|
  {
    if updates != [] {
      BroadcastIgnoresTasks(a, b, id, updates[1..], limit);
      var a', b' := PublishOne(a, id, updates[0]), PublishOne(b, id, updates[0]);
      if limit > 0 { BroadcastIgnoresTasks(a', b', id, updates[1..], limit - 1); }
    }
  }

  lemma HandlerIgnoresTasks(a: Runtime, b: Runtime, id: Id, script: Script)
    requires script.Valid() && b == a.(tasks := b.tasks)
    ensures var (s, t) := (HandleFailure(a, id, script), HandleFailure(b, id, script));
      t == (s.0.(tasks := b.tasks), s.1)
  {
    hide CallAndRead, BroadcastAll, GetWorkflow;
    var (m, updates) := CallAndRead(a.service, Transition(id, Failed, script.opClocks[8]), 7, script.readClocks[8]);
    BroadcastIgnoresTasks(a.(service := m), b.(service := m), id, updates, script.limits[8]);
  }

  /** Coroutines standing by make no difference to a run. */
  lemma {:induction false} TasksDoNotMatter(
    a: Runtime, b: Runtime, id: Id, policy: AgentPolicy, script: Script, n: nat)
    requires script.Valid() && n <= 8 && b == a.(tasks := b.tasks)
    ensures var (s, t) := (RunFrom(a, id, policy, script, n), RunFrom(b, id, policy, script, n));
      t == (s.0.(tasks := b.tasks), s.1)
    decreases 8 - n
  {
    hide CallAndRead, BroadcastAll, GetWorkflow, HandleFailure;
    if n == 8 {
      HandlerIgnoresTasks(a.(wire := a.wire + [Placeholder(id)]), b.(wire := b.wire + [Placeholder(id)]), id, script);
    } else {
      HandlerIgnoresTasks(a, b, id, script);
      var (m, updates) := CallAndRead(a.service, CallOf(id, n, policy, script.opClocks[n]), n, script.readClocks[n]);
      var a', b' := a.(service := m), b.(service := m);
      BroadcastIgnoresTasks(a', b', id, updates, script.limits[n]);
      var t, u := BroadcastAll(a', id, updates, script.limits[n]).0, BroadcastAll(b', id, updates, script.limits[n]).0;
      HandlerIgnoresTasks(t, u, id, script);
      TasksDoNotMatter(t, u, id, policy, script, n + 1);
    }
  }

  /** The machine can take itself to where a run on its own ends, whatever raises in it. */
  lemma LoneRunReached(create: Op, policy: AgentPolicy, script: Script) returns (steps: seq<Step>)
    requires create.Create? && create.id != LATEST && script.Valid()
    ensures LegalSteps(IDLE, policy, steps) && forall i :: 0 <= i < |steps| ==> OnlyTasksMove(steps[i], create.id)
    ensures var (r, end) := RunFrom(Created(create), create.id, policy, script, 0);
      TakeAll(IDLE, policy, steps) == r.(tasks := [Task(create.id, end)])
  {
    hide RunFrom, TakeAll, LegalSteps, Apply, GetWorkflow;
    var id := create.id;
    var r := Created(create).(tasks := [Task(id, Ready(0))]);
    var run := RunSteps(r, policy, 0, script, 0);
    TasksDoNotMatter(Created(create), r, id, policy, script, 0);
    assert At(r, 0, Ready(0)) == r;
    var opening := [Outside(create), Spawn(id)];
    Opened(create, policy, run);
    TakeAllConcat(IDLE, policy, opening, run);
    steps := opening + run;
  }

  /** One workflow created and run by one coroutine. Whatever raises, no update is on the wire twice; and if the run
      succeeds, every update of the workflow's stream with a time stamp from the stores is there exactly once. */
  lemma {:induction false} LoneRunPublishes(create: Op, policy: AgentPolicy, script: Script, u: Update)
    requires create.Create? && create.id != LATEST && script.Valid()
    ensures var (r, end) := RunFrom(Created(create), create.id, policy, script, 0);
      TimesSent(r.wire, KeyFor(create.id, u)) <= 1
      && (end == Succeeded && ViewOf(r.service.stores, create.id).Some?
          && StreamCache.StableUpdate(ViewOf(r.service.stores, create.id).value, u) ==>
            TimesSent(r.wire, KeyFor(create.id, u)) == 1)
  {
    hide RunFrom, TakeAll, LegalSteps, StreamCache.StableUpdate, ViewOf, Apply;
    var (r, end) := RunFrom(Created(create), create.id, policy, script, 0);
    var steps := LoneRunReached(create, policy, script);
    var final := TakeAll(IDLE, policy, steps);
    assert final.tasks[0] == Task(create.id, end);
    PublishedAtMostOnce(IDLE, policy, steps);
    SentOnce(final, KeyFor(create.id, u), |final.wire|);
    assert final.wire[..|final.wire|] == final.wire;
    if end == Succeeded && ViewOf(r.service.stores, create.id).Some?
       && StreamCache.StableUpdate(ViewOf(r.service.stores, create.id).value, u) {
      EverythingPublishedOnce(policy, steps, create.id, u);
    }
  }
}
