/** The in-memory stores of backend/storage.py and the writes the service makes to them. */
module Stores {
  import opened Wrappers
  import opened Models

  /** The id under which callers may ask for the workflow saved last. No workflow has it as its own id. */
  const LATEST: Id := "workflow:latest"

  datatype Stores = Stores(
    workflows: map<Id, Workflow>, latest: Option<Id>, telemetry: map<Id, Telemetry>,
    agents: map<Id, seq<Agent>>, traces: map<Id, seq<Trace>>, events: map<Id, seq<Event>>)

  const NO_STORES := Stores(map[], None, map[], map[], map[], map[])

  /** One call into the stores. `Save` is the three-store write of `_save_workflow`. */
  datatype Write =
    | Save(workflow: Workflow)
    | SaveTraces(id: Id, traces: seq<Trace>, org: string, workspace: string)
    | Append(id: Id, event: Event, org: string, workspace: string)

  function ListOf<T>(m: map<Id, seq<T>>, id: Id): seq<T> {
    if id in m then m[id] else []
  }

  function WriteMemory(s: Stores, write: Write): Stores {
    match write
    case Save(w) => s.(workflows := s.workflows[w.id := w], latest := Some(w.id),
                       telemetry := s.telemetry[w.id := w.telemetry], agents := s.agents[w.id := w.agents])
    case SaveTraces(id, traces, _, _) => s.(traces := s.traces[id := traces])
    case Append(id, event, _, _) => s.(events := s.events[id := ListOf(s.events, id) + [event]])
  }

  function FindWorkflow(s: Stores, id: Id): Option<Workflow> {
    if id == LATEST && s.latest.Some? then
      if s.latest.value in s.workflows then Some(s.workflows[s.latest.value]) else None
    else if id in s.workflows then Some(s.workflows[id]) else None
  }

  /** `get_workflow`: the saved record with telemetry and agents read back from their own stores. */
  function GetWorkflow(s: Stores, id: Id): Option<Workflow> {
    match FindWorkflow(s, id)
    case None => None
    case Some(w) =>
      Some(w.(telemetry := if w.id in s.telemetry then s.telemetry[w.id] else w.telemetry,
              agents := ListOf(s.agents, w.id)))
  }

  function GetEvents(s: Stores, id: Id): Option<seq<Event>> {
    if GetWorkflow(s, id).None? then None else Some(ListOf(s.events, id))
  }

  function GetTraces(s: Stores, id: Id): Option<seq<Trace>> {
    if GetWorkflow(s, id).None? then None else Some(ListOf(s.traces, id))
  }

  /** What every sequence of service operations keeps: records sit under their own concrete id, and the
      telemetry and agent stores repeat what the record says. */
  ghost predicate Consistent(s: Stores) {
    && (forall id :: id in s.workflows ==>
          s.workflows[id].id == id && id != LATEST
          && id in s.telemetry && s.telemetry[id] == s.workflows[id].telemetry
          && id in s.agents && s.agents[id] == s.workflows[id].agents)
    && (s.latest.Some? ==> s.latest.value in s.workflows)
  }

  lemma WriteKeepsConsistent(s: Stores, write: Write)
    requires Consistent(s)
    requires write.Save? ==> write.workflow.id != LATEST
    ensures Consistent(WriteMemory(s, write))
  {
  }

  /** In a consistent store reading a concrete id gives the saved record itself. */
  lemma GetConcrete(s: Stores, id: Id)
    requires Consistent(s) && id != LATEST
    ensures GetWorkflow(s, id) == if id in s.workflows then Some(s.workflows[id]) else None
  {
  }

  lemma GetKnown(s: Stores, id: Id)
    requires Consistent(s) && GetWorkflow(s, id).Some?
    ensures var w := GetWorkflow(s, id).value; w.id in s.workflows && w == s.workflows[w.id] && w.id != LATEST
    ensures id != LATEST ==> GetWorkflow(s, id).value.id == id
  {
  }
}
