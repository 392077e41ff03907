/** The cache key identifies the whole state of a workflow along a run, so that the cache would stay coherent
    between operations even if nothing were ever thrown out of it. */
module Fingerprint {
  import opened Wrappers
  import opened Models
  import opened Stores
  import opened Service
  import opened Effects
  import opened StreamCache

  ghost predicate Prefix<T>(a: seq<T>, b: seq<T>) {
    |a| <= |b| && b[..|a|] == a
  }

  /** `later` is the same workflow at the same time or, with at least one more event, at a later time. */
  ghost predicate Precedes(v: View, later: View) {
    && Prefix(v.events, later.events)
    && Prefix(v.workflow.stages, later.workflow.stages)
    && Prefix(v.workflow.agents, later.workflow.agents)
    && (|v.events| == |later.events| ==> v == later)
  }

  lemma PrecedesTransitive(a: View, b: View, c: View)
    requires Precedes(a, b) && Precedes(b, c)
    ensures Precedes(a, c)
  {
    assert c.events[..|a.events|] == b.events[..|a.events|];
    assert c.workflow.stages[..|a.workflow.stages|] == b.workflow.stages[..|a.workflow.stages|];
    assert c.workflow.agents[..|a.workflow.agents|] == b.workflow.agents[..|a.workflow.agents|];
  }

  /** Views of known concrete ids, read straight off the stores. */
  lemma ViewConcrete(s: Stores, id: Id)
    requires Consistent(s) && id != LATEST
    ensures ViewOf(s, id) == if id in s.workflows
      then Some(View(s.workflows[id], ListOf(s.events, id), s.workflows[id].telemetry)) else None
  {
    GetConcrete(s, id);
  }

  /** One operation moves a workflow forward or leaves it exactly as it was. */
  lemma ApplyForward(s: State, op: Op, id: Id)
    requires Consistent(s.stores) && Legal(s, op) && op.id != LATEST && id in s.stores.workflows
    ensures var t := Apply(s, op).stores;
      Consistent(t) && id in t.workflows && Precedes(ViewOf(s.stores, id).value, ViewOf(t, id).value)
  {
    hide Apply, Writes, AgentNames;
    var t := Apply(s, op).stores;
    ApplyKeepsConsistent(s, op);
    GetConcrete(s.stores, op.id);
    if Touches(s.stores, op, id) {
      match op {
        case Transition(_, status, clock) => TransitionEffect(s, id, status, clock);
        case CompleteStage(_, stage, policy, clock) => StageEffect(s, id, stage, policy, clock);
      }
    } else {
      UntouchedKept(s, op, id);
    }
    ViewConcrete(s.stores, id);
    ViewConcrete(t, id);
  }

  lemma {:induction false} RunForward(s: State, ops: seq<Op>, id: Id)
    requires Consistent(s.stores) && LegalRun(s, ops) && id in s.stores.workflows
    requires forall i :: 0 <= i < |ops| ==> ops[i].id != LATEST
    ensures var t := Run(s, ops).stores;
      Consistent(t) && id in t.workflows && Precedes(ViewOf(s.stores, id).value, ViewOf(t, id).value)
    decreases |ops|
  {
    hide Apply;
    ViewConcrete(s.stores, id);
    if ops != [] {
      var mid := Apply(s, ops[0]);
      ApplyForward(s, ops[0], id);
      RunForward(mid, ops[1..], id);
      ViewConcrete(mid.stores, id);
      PrecedesTransitive(ViewOf(s.stores, id).value, ViewOf(mid.stores, id).value,
                         ViewOf(Run(s, ops).stores, id).value);
    }
  }

  /** Two states of one workflow along a run with equal cache keys have equal records - status, telemetry,
      stages, agents - and equal events. */
  lemma {:induction false} KeyIsFaithful(s: State, ops: seq<Op>, id: Id)
    requires Consistent(s.stores) && LegalRun(s, ops) && id in s.stores.workflows
    requires forall i :: 0 <= i < |ops| ==> ops[i].id != LATEST
    ensures var t := Run(s, ops).stores;
      ViewOf(s.stores, id).Some? && ViewOf(t, id).Some?
      && (KeyOf(ViewOf(s.stores, id).value) == KeyOf(ViewOf(t, id).value)
          <==> ViewOf(s.stores, id).value == ViewOf(t, id).value)
  {
    RunForward(s, ops, id);
    ViewConcrete(s.stores, id);
    ViewConcrete(Run(s, ops).stores, id);
  }

  // ---------------------------------------------------------------- invalidation is not what keeps it coherent

  /** The service with both cache pops removed. */
  function ApplyLazily(s: State, op: Op): State {
    if op.ReadStream? then Apply(s, op) else State(Apply(s, op).stores, s.cache)
  }

  function RunLazily(s: State, ops: seq<Op>): State
    decreases |ops|
  {
    if ops == [] then s else RunLazily(ApplyLazily(s, ops[0]), ops[1..])
  }

  ghost predicate LegalLazily(s: State, ops: seq<Op>)
    decreases |ops|
  {
    ops == [] || (Legal(s, ops[0]) && LegalLazily(ApplyLazily(s, ops[0]), ops[1..]))
  }

  /** Every slot holds the view of its workflow at some earlier time. */
  ghost predicate Remembers(entry: CacheEntry, v: View) {
    exists past: View, clock: seq<Timestamp> ::
      entry == CacheEntry(KeyOf(past), StreamUpdates(past, clock)) && Precedes(past, v)
  }

  ghost predicate LazyInv(s: State) {
    && Consistent(s.stores)
    && forall id :: id in s.cache ==>
         id in s.stores.workflows && Remembers(s.cache[id], ViewOf(s.stores, id).value)
  }

  lemma LazyRead(s: State, id: Id, clock: seq<Timestamp>)
    requires LazyInv(s) && id != LATEST
    ensures LazyInv(ReadUpdates(s, id, clock).1)
    ensures match ViewOf(s.stores, id)
            case None => ReadUpdates(s, id, clock).0 == None
            case Some(v) => ReadUpdates(s, id, clock).0.Some? && Computed(ReadUpdates(s, id, clock).0.value, v)
  {
    hide StreamUpdates, KeyOf;
    ViewConcrete(s.stores, id);
    if ViewOf(s.stores, id).Some? {
      var v := ViewOf(s.stores, id).value;
      var t := ReadUpdates(s, id, clock).1;
      assert Precedes(v, v) && Computed(StreamUpdates(v, clock), v);
      if id in s.cache && s.cache[id].key == KeyOf(v) {
        var past, clock' :| s.cache[id] == CacheEntry(KeyOf(past), StreamUpdates(past, clock')) && Precedes(past, v);
        assert past == v by { SameKeySameView(past, v); }
        assert Computed(s.cache[id].updates, v);
      } else {
        assert Remembers(t.cache[id], v);
      }
    }
  }

  lemma SameKeySameView(past: View, v: View)
    requires KeyOf(past) == KeyOf(v) && Precedes(past, v)
    ensures past == v
  {
  }

  lemma LazyStep(s: State, op: Op)
    requires LazyInv(s) && Legal(s, op) && op.id != LATEST
    ensures LazyInv(ApplyLazily(s, op))
  {
    if op.ReadStream? {
      LazyRead(s, op.id, op.clock);
    } else {
      hide Apply, StreamUpdates, KeyOf;
      var t := ApplyLazily(s, op);
      ApplyKeepsConsistent(s, op);
      forall id | id in t.cache
        ensures id in t.stores.workflows && Remembers(t.cache[id], ViewOf(t.stores, id).value)
      {
        var v := ViewOf(s.stores, id).value;
        var past, clock :| s.cache[id] == CacheEntry(KeyOf(past), StreamUpdates(past, clock)) && Precedes(past, v);
        ApplyForward(s, op, id);
        PrecedesTransitive(past, v, ViewOf(t.stores, id).value);
      }
    }
  }

  lemma {:induction false} LazyRun(s: State, ops: seq<Op>)
    requires LazyInv(s) && LegalLazily(s, ops)
    requires forall i :: 0 <= i < |ops| ==> ops[i].id != LATEST
    ensures LazyInv(RunLazily(s, ops))
    decreases |ops|
  {
    hide ApplyLazily;
    if ops != [] {
      LazyStep(s, ops[0]);
      LazyRun(ApplyLazily(s, ops[0]), ops[1..]);
    }
  }

  /** Without any invalidation, reads by concrete id still answer with what recomputation gives. */
  lemma {:induction false} InvalidationIsRedundant(ops: seq<Op>, id: Id, clock: seq<Timestamp>)
    requires LegalLazily(EMPTY, ops) && id != LATEST && forall i :: 0 <= i < |ops| ==> ops[i].id != LATEST
    ensures var s := RunLazily(EMPTY, ops);
      match ViewOf(s.stores, id)
      case None => ReadUpdates(s, id, clock).0 == None
      case Some(v) => ReadUpdates(s, id, clock).0.Some? && Computed(ReadUpdates(s, id, clock).0.value, v)
  {
    LazyRun(EMPTY, ops);
    LazyRead(RunLazily(EMPTY, ops), id, clock);
  }
}
