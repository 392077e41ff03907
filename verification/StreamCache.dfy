/** The memoised stream view agrees with recomputation, and its key is a faithful fingerprint. */
module StreamCache {
  import opened Wrappers
  import opened Models
  import opened Stores
  import opened Service
  import opened Effects
  import Sorting

  /** Some reading of the clock (it only stamps agents whose stage is not recorded) gives these updates. */
  ghost predicate Computed(updates: seq<Update>, v: View) {
    exists clock :: updates == StreamUpdates(v, clock)
  }

  ghost predicate Fresh(entry: CacheEntry, v: View) {
    entry.key == KeyOf(v) && Computed(entry.updates, v)
  }

  ghost predicate Coherent(s: State) {
    && Consistent(s.stores)
    && forall id :: id in s.cache && id != LATEST ==>
         ViewOf(s.stores, id).Some? && Fresh(s.cache[id], ViewOf(s.stores, id).value)
  }

  /** Each single write keeps every concrete slot coherent: it drops exactly the slot whose view it changes. */
  lemma PerformKeepsCoherent(s: State, write: Write)
    requires Coherent(s)
    requires write.Save? ==> write.workflow.id != LATEST
    ensures Coherent(Perform(s, write))
  {
    var t := Perform(s, write);
    WriteKeepsConsistent(s.stores, write);
    forall id | id in t.cache && id != LATEST
      ensures ViewOf(t.stores, id).Some? && Fresh(t.cache[id], ViewOf(t.stores, id).value)
    {
      assert id in s.cache;
      assert ViewOf(t.stores, id) == ViewOf(s.stores, id);
    }
  }

  lemma {:induction false} WritesKeepCoherent(s: State, writes: seq<Write>)
    requires Coherent(s)
    requires forall i :: 0 <= i < |writes| && writes[i].Save? ==> writes[i].workflow.id != LATEST
    ensures Coherent(PerformAll(s, writes))
  {
    if writes != [] {
      WritesKeepCoherent(s, writes[..|writes| - 1]);
      PerformKeepsCoherent(PerformAll(s, writes[..|writes| - 1]), writes[|writes| - 1]);
    }
  }

  /** A read answers with recomputed updates and leaves the cache coherent. */
  lemma ReadIsFresh(s: State, id: Id, clock: seq<Timestamp>)
    requires Coherent(s)
    ensures Coherent(ReadUpdates(s, id, clock).1)
    ensures id != LATEST ==>
      match ViewOf(s.stores, id)
      case None => ReadUpdates(s, id, clock).0 == None
      case Some(v) => ReadUpdates(s, id, clock).0.Some? && Computed(ReadUpdates(s, id, clock).0.value, v)
  {
    if ViewOf(s.stores, id).Some? {
      assert Computed(StreamUpdates(ViewOf(s.stores, id).value, clock), ViewOf(s.stores, id).value);
    }
  }

  lemma {:induction false} RunKeepsCoherent(s: State, ops: seq<Op>)
    requires Coherent(s) && LegalRun(s, ops)
    ensures Coherent(Run(s, ops))
    decreases |ops|
  {
    if ops != [] {
      if ops[0].ReadStream? {
        ReadIsFresh(s, ops[0].id, ops[0].clock);
      } else {
        WritesConcrete(s, ops[0]);
        WritesKeepCoherent(s, Writes(s.stores, ops[0]));
      }
      RunKeepsCoherent(Apply(s, ops[0]), ops[1..]);
    }
  }

  /** Stream cache coherence: after any operations on any workflows - some of them naming a workflow through the
      alias - reading a concrete id gives what recomputing from the stores gives. */
  lemma {:induction false} CacheCoherence(ops: seq<Op>, id: Id, clock: seq<Timestamp>)
    requires LegalRun(EMPTY, ops) && id != LATEST
    ensures var s := Run(EMPTY, ops);
      match ViewOf(s.stores, id)
      case None => ReadUpdates(s, id, clock).0 == None
      case Some(v) => ReadUpdates(s, id, clock).0.Some? && Computed(ReadUpdates(s, id, clock).0.value, v)
  {
    RunKeepsCoherent(EMPTY, ops);
    ReadIsFresh(Run(EMPTY, ops), id, clock);
  }

  // ---------------------------------------------------------------- what the clock can change

  /** An agent's stamp comes from the stage records. */
  predicate Stamped(agent: Agent, stages: seq<StageProgress>) {
    StageTime(stages, agent.stage).Some?
  }

  /** An update of the view whose time stamp comes from the stores rather than from the reader's clock. */
  ghost predicate StableUpdate(v: View, u: Update) {
    || u in EventUpdates(v.events)
    || u in UpdatesOfKind(v.events, EventType.LifecycleTransition, LifecycleUpdate)
    || u in UpdatesOfKind(v.events, EventType.InvestigationUpdate, InvestigationStreamUpdate)
    || u in StageUpdates(v.workflow.stages)
    || (exists i :: 0 <= i < |v.workflow.agents| && Stamped(v.workflow.agents[i], v.workflow.stages)
                    && u == AgentUpdates(v.workflow.agents, v.workflow.stages, [])[i])
    || u in TelemetryUpdates(v.telemetry)
  }

  /** Every stable update is in every recomputation; anything else in one is an agent without a recorded stage. */
  lemma StableInEveryView(v: View, clock: seq<Timestamp>, u: Update)
    ensures StableUpdate(v, u) ==> u in StreamUpdates(v, clock)
    ensures u in StreamUpdates(v, clock) ==>
      || StableUpdate(v, u)
      || exists i :: 0 <= i < |v.workflow.agents| && !Stamped(v.workflow.agents[i], v.workflow.stages)
                     && u == AgentUpdates(v.workflow.agents, v.workflow.stages, clock)[i]
  {
    Sorting.SortMembers(UpdateKey, Unsorted(v, clock));
    var agents := AgentUpdates(v.workflow.agents, v.workflow.stages, clock);
    if i :| 0 <= i < |v.workflow.agents| && Stamped(v.workflow.agents[i], v.workflow.stages)
            && u == AgentUpdates(v.workflow.agents, v.workflow.stages, [])[i] {
      assert agents[i] == u;
    }
    if u in agents && u !in TelemetryUpdates(v.telemetry) {
      var i :| 0 <= i < |agents| && agents[i] == u;
      if Stamped(v.workflow.agents[i], v.workflow.stages) {
        assert u == AgentUpdates(v.workflow.agents, v.workflow.stages, [])[i];
      }
    }
  }

  /** When every agent's stage is recorded the view is a function of the stores alone. */
  lemma ClockFree(v: View, clock: seq<Timestamp>, clock': seq<Timestamp>)
    requires forall i :: 0 <= i < |v.workflow.agents| ==> Stamped(v.workflow.agents[i], v.workflow.stages)
    ensures StreamUpdates(v, clock) == StreamUpdates(v, clock')
  {
    assert AgentUpdates(v.workflow.agents, v.workflow.stages, clock)
        == AgentUpdates(v.workflow.agents, v.workflow.stages, clock');
  }
}
