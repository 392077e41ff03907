/** The SQLite stores of backend/storage.py: tables of rows under one autoincrementing key, filtered by workflow
    and workspace, and why they answer like the per-workflow maps. */
module RowStores {
  import opened Wrappers
  import opened Models
  import opened Stores
  import opened Service
  import opened Effects

  // ---------------------------------------------------------------- one table

  datatype Row<T> = Row(workflowId: Id, org: string, workspace: string, payload: T)

  /** Rows by primary key. Keys are handed out in order and, the column being AUTOINCREMENT, never again. */
  datatype Table<T> = Table(rows: map<nat, Row<T>>, nextId: nat) {
    predicate Valid() {
      forall k :: k in rows ==> k < nextId
    }
  }

  predicate Matches<T>(row: Row<T>, id: Id, workspace: Option<string>) {
    row.workflowId == id && (workspace == None || workspace == Some(row.workspace))
  }

  /** `SELECT ... WHERE workflow_id = ? [AND workspace_id = ?] ORDER BY id`, over the keys below `n`. */
  function Select<T>(rows: map<nat, Row<T>>, id: Id, workspace: Option<string>, n: nat): seq<T> {
    if n == 0 then [] else
      Select(rows, id, workspace, n - 1)
      + (if n - 1 in rows && Matches(rows[n - 1], id, workspace) then [rows[n - 1].payload] else [])
  }

  function List<T>(t: Table<T>, id: Id, workspace: Option<string>): seq<T> {
    Select(t.rows, id, workspace, t.nextId)
  }

  function Insert<T>(t: Table<T>, row: Row<T>): Table<T> {
    Table(t.rows[t.nextId := row], t.nextId + 1)
  }

  function Delete<T>(t: Table<T>, id: Id): Table<T> {
    t.(rows := map k | k in t.rows && t.rows[k].workflowId != id :: t.rows[k])
  }

  function InsertAll<T>(t: Table<T>, id: Id, org: string, workspace: string, items: seq<T>): Table<T> {
    if items == [] then t
    else Insert(InsertAll(t, id, org, workspace, items[..|items| - 1]), Row(id, org, workspace, items[|items| - 1]))
  }

  function SaveAll<T>(t: Table<T>, id: Id, org: string, workspace: string, items: seq<T>): Table<T> {
    InsertAll(Delete(t, id), id, org, workspace, items)
  }

  /** The storage object over one table. */
  class RowTable<T> {
    var rows: map<nat, Row<T>>
    var nextId: nat

    function Contents(): Table<T>
      reads this
    {
      Table(rows, nextId)
    }

    constructor ()
      ensures Contents() == Table(map[], 0)
    {
      rows, nextId := map[], 0;
    }

    method InsertRow(id: Id, org: string, workspace: string, item: T)
      modifies this
      ensures Contents() == Insert(old(Contents()), Row(id, org, workspace, item))
    {
      rows := rows[nextId := Row(id, org, workspace, item)];
      nextId := nextId + 1;
    }

    /** Delete, then insert one row per item. */
    method ReplaceAll(id: Id, org: string, workspace: string, items: seq<T>)
      modifies this
      ensures Contents() == SaveAll(old(Contents()), id, org, workspace, items)
    {
      ghost var kept := Delete(Contents(), id);
      rows := map k | k in rows && rows[k].workflowId != id :: rows[k];
      for i := 0 to |items|
        invariant Contents() == InsertAll(kept, id, org, workspace, items[..i])
      {
        InsertRow(id, org, workspace, items[i]);
        assert items[..i + 1][..i] == items[..i];
      }
      assert items[..|items|] == items;
    }

    method ListRows(id: Id, workspace: Option<string>) returns (items: seq<T>)
      ensures items == List(Contents(), id, workspace)
    {
      items := [];
      for k := 0 to nextId
        invariant items == Select(rows, id, workspace, k)
      {
        if k in rows && Matches(rows[k], id, workspace) {
          items := items + [rows[k].payload];
        }
      }
    }
  }

  lemma {:induction false} SelectAgrees<T>(
    rows: map<nat, Row<T>>, rows': map<nat, Row<T>>, id: Id, workspace: Option<string>, n: nat)
    requires forall k :: 0 <= k < n ==>
      ((k in rows && rows[k].workflowId == id) <==> (k in rows' && rows'[k].workflowId == id))
      && (k in rows && rows[k].workflowId == id ==> rows'[k] == rows[k])
    ensures Select(rows, id, workspace, n) == Select(rows', id, workspace, n)
  {
    if n > 0 {
      SelectAgrees(rows, rows', id, workspace, n - 1);
    }
  }

  lemma {:induction false} SelectNone<T>(rows: map<nat, Row<T>>, id: Id, workspace: Option<string>, n: nat)
    requires forall k :: k in rows && k < n ==> rows[k].workflowId != id
    ensures Select(rows, id, workspace, n) == []
  {
    if n > 0 {
      SelectNone(rows, id, workspace, n - 1);
    }
  }

  lemma InsertLists<T>(t: Table<T>, row: Row<T>, id: Id, workspace: Option<string>)
    requires t.Valid()
    ensures Insert(t, row).Valid()
    ensures List(Insert(t, row), id, workspace)
         == List(t, id, workspace) + (if Matches(row, id, workspace) then [row.payload] else [])
  {
    SelectAgrees(t.rows, Insert(t, row).rows, id, workspace, t.nextId);
  }

  lemma DeleteLists<T>(t: Table<T>, gone: Id, id: Id, workspace: Option<string>)
    requires t.Valid()
    ensures Delete(t, gone).Valid()
    ensures List(Delete(t, gone), id, workspace) == if id == gone then [] else List(t, id, workspace)
  {
    if id == gone {
      SelectNone(Delete(t, gone).rows, id, workspace, t.nextId);
    } else {
      SelectAgrees(t.rows, Delete(t, gone).rows, id, workspace, t.nextId);
    }
  }

  lemma {:induction false} InsertAllLists<T>(
    t: Table<T>, owner: Id, org: string, home: string, items: seq<T>, id: Id, workspace: Option<string>)
    requires t.Valid()
    ensures InsertAll(t, owner, org, home, items).Valid()
    ensures List(InsertAll(t, owner, org, home, items), id, workspace)
         == List(t, id, workspace)
            + (if id == owner && (workspace == None || workspace == Some(home)) then items else [])
  {
    if items != [] {
      var n := |items| - 1;
      InsertAllLists(t, owner, org, home, items[..n], id, workspace);
      InsertLists(InsertAll(t, owner, org, home, items[..n]), Row(owner, org, home, items[n]), id, workspace);
      assert items == items[..n] + [items[n]];
    }
  }

  /** Delete-then-insert leaves exactly the new items for its workflow and every other list as it was. */
  lemma SaveAllLists<T>(
    t: Table<T>, owner: Id, org: string, home: string, items: seq<T>, id: Id, workspace: Option<string>)
    requires t.Valid()
    ensures SaveAll(t, owner, org, home, items).Valid()
    ensures List(SaveAll(t, owner, org, home, items), id, workspace)
         == if id != owner then List(t, id, workspace)
            else if workspace == None || workspace == Some(home) then items else []
  {
    DeleteLists(t, owner, id, workspace);
    InsertAllLists(Delete(t, owner), owner, org, home, items, id, workspace);
  }

  // ---------------------------------------------------------------- the database

  const DEFAULT_ORG := "organization:default"
  const DEFAULT_WORKSPACE := "workspace:default"
  const DEFAULT_USER := "user:anonymous"

  /** The workflow row has no telemetry and no agents. */
  datatype WorkflowRow = WorkflowRow(
    id: Id, org: string, workspace: string, user: string, question: string, status: Status, createdAt: Timestamp,
    currentStage: Option<Stage>, stages: seq<StageProgress>)

  datatype Database = Database(
    workflows: map<Id, WorkflowRow>, telemetry: map<Id, Telemetry>, agents: Table<Agent>, traces: Table<Trace>,
    events: Table<Event>)

  const NO_ROWS := Database(map[], map[], Table(map[], 0), Table(map[], 0), Table(map[], 0))

  function RowOf(w: Workflow): WorkflowRow {
    WorkflowRow(w.id, w.org, w.workspace, w.user, w.question, w.status, w.createdAt, w.currentStage, w.stages)
  }

  function OrDefault(value: string, default: string): string {
    if value == "" then default else value
  }

  /** `_workflow_from_row`: blank tenant columns read back as the defaults. */
  function FromRow(row: WorkflowRow): Workflow {
    Workflow(row.id, OrDefault(row.org, DEFAULT_ORG), OrDefault(row.workspace, DEFAULT_WORKSPACE),
             OrDefault(row.user, DEFAULT_USER), row.question, row.status, row.createdAt, NO_TELEMETRY,
             row.currentStage, row.stages, [])
  }

  function WriteRows(db: Database, write: Write): Database {
    match write
    case Save(w) => db.(workflows := db.workflows[w.id := RowOf(w)], telemetry := db.telemetry[w.id := w.telemetry],
                        agents := SaveAll(db.agents, w.id, w.org, w.workspace, w.agents))
    case SaveTraces(id, traces, org, workspace) => db.(traces := SaveAll(db.traces, id, org, workspace, traces))
    case Append(id, event, org, workspace) => db.(events := Insert(db.events, Row(id, org, workspace, event)))
  }

  function WriteAllRows(db: Database, writes: seq<Write>): Database {
    if writes == [] then db else WriteRows(WriteAllRows(db, writes[..|writes| - 1]), writes[|writes| - 1])
  }

  function RowsWorkflow(db: Database, id: Id): Option<Workflow> {
    if id !in db.workflows then None
    else
      var w := FromRow(db.workflows[id]);
      Some(w.(telemetry := if w.id in db.telemetry then db.telemetry[w.id] else w.telemetry,
              agents := List(db.agents, w.id, Some(w.workspace))))
  }

  function RowsEvents(db: Database, id: Id): Option<seq<Event>> {
    match RowsWorkflow(db, id)
    case None => None
    case Some(w) => Some(List(db.events, id, Some(w.workspace)))
  }

  function RowsTraces(db: Database, id: Id): Option<seq<Trace>> {
    match RowsWorkflow(db, id)
    case None => None
    case Some(w) => Some(List(db.traces, id, Some(w.workspace)))
  }

  /** The same service operation against the database. */
  function ApplyRows(db: Database, op: Op): Database {
    var prior := RowsTraces(db, op.id);
    WriteAllRows(db, WritesFrom(RowsWorkflow(db, op.id), if prior.Some? then prior.value else [], op))
  }

  function RunRows(db: Database, ops: seq<Op>): Database
    decreases |ops|
  {
    if ops == [] then db else RunRows(ApplyRows(db, ops[0]), ops[1..])
  }

  // ---------------------------------------------------------------- refinement

  predicate Named(w: Workflow) {
    w.org != "" && w.workspace != "" && w.user != ""
  }

  /** Every row sits in its workflow's own workspace, and unknown workflows have no rows. */
  ghost predicate AtHome<T>(t: Table<T>, workflows: map<Id, Workflow>) {
    && t.Valid()
    && forall k :: k in t.rows ==>
         t.rows[k].workflowId in workflows && t.rows[k].workspace == workflows[t.rows[k].workflowId].workspace
  }

  /** Reading a known workflow's rows in its workspace gives the list the map store holds. */
  ghost predicate SameLists<T>(t: Table<T>, lists: map<Id, seq<T>>, workflows: map<Id, Workflow>) {
    forall id :: id in workflows ==> List(t, id, Some(workflows[id].workspace)) == ListOf(lists, id)
  }

  ghost predicate SameRecords(workflows: map<Id, Workflow>, rows: map<Id, WorkflowRow>) {
    && workflows.Keys == rows.Keys
    && forall id :: id in workflows ==> Named(workflows[id]) && rows[id] == RowOf(workflows[id])
  }

  /** Nothing is stored for a workflow without a record. */
  ghost predicate NoStrays(s: Stores) {
    forall id :: id !in s.workflows ==>
      ListOf(s.agents, id) == [] && ListOf(s.traces, id) == [] && ListOf(s.events, id) == []
  }

  lemma WriteLeavesNoStrays(s: Stores, write: Write)
    requires NoStrays(s) && (match write
      case Save(_) => true
      case SaveTraces(id, _, _, _) => id in s.workflows
      case Append(id, _, _, _) => id in s.workflows)
    ensures NoStrays(WriteMemory(s, write))
  {
  }

  ghost predicate Refines(s: Stores, db: Database) {
    && Consistent(s)
    && SameRecords(s.workflows, db.workflows)
    && s.telemetry == db.telemetry && s.telemetry.Keys == s.workflows.Keys
    && NoStrays(s)
    && AtHome(db.agents, s.workflows) && SameLists(db.agents, s.agents, s.workflows)
    && AtHome(db.traces, s.workflows) && SameLists(db.traces, s.traces, s.workflows)
    && AtHome(db.events, s.workflows) && SameLists(db.events, s.events, s.workflows)
  }

  /** In refining stores every question about a concrete id has one answer. */
  lemma SameAnswers(s: Stores, db: Database, id: Id)
    requires Refines(s, db) && id != LATEST
    ensures RowsWorkflow(db, id) == GetWorkflow(s, id)
    ensures RowsEvents(db, id) == GetEvents(s, id)
    ensures RowsTraces(db, id) == GetTraces(s, id)
  {
    GetConcrete(s, id);
  }

  /** A write names its workflow's own workspace; a save never moves a workflow to another. */
  ghost predicate Fits(s: Stores, write: Write) {
    match write
    case Save(w) => w.id != LATEST && Named(w) && (w.id in s.workflows ==> s.workflows[w.id].workspace == w.workspace)
    case SaveTraces(id, _, _, workspace) => id in s.workflows && s.workflows[id].workspace == workspace
    case Append(id, _, _, workspace) => id in s.workflows && s.workflows[id].workspace == workspace
  }

  lemma {:induction false} InsertAllAtHome<T>(
    t: Table<T>, workflows: map<Id, Workflow>, id: Id, org: string, items: seq<T>)
    requires AtHome(t, workflows) && id in workflows
    ensures AtHome(InsertAll(t, id, org, workflows[id].workspace, items), workflows)
  {
    if items != [] {
      InsertAllAtHome(t, workflows, id, org, items[..|items| - 1]);
    }
  }

  /** The agents and traces tables: replacing one workflow's rows keeps rows at home and lists equal. */
  lemma SaveAllRefines<T>(
    t: Table<T>, lists: map<Id, seq<T>>, workflows: map<Id, Workflow>, id: Id, org: string, items: seq<T>)
    requires AtHome(t, workflows) && SameLists(t, lists, workflows) && id in workflows
    ensures AtHome(SaveAll(t, id, org, workflows[id].workspace, items), workflows)
    ensures SameLists(SaveAll(t, id, org, workflows[id].workspace, items), lists[id := items], workflows)
  {
    var home := workflows[id].workspace;
    DeleteLists(t, id, id, None);
    InsertAllAtHome(Delete(t, id), workflows, id, org, items);
    forall other | other in workflows
      ensures List(SaveAll(t, id, org, home, items), other, Some(workflows[other].workspace))
           == ListOf(lists[id := items], other)
    {
      SaveAllLists(t, id, org, home, items, other, Some(workflows[other].workspace));
    }
  }

  /** A table does not notice a workflow that is new or that keeps its workspace. */
  lemma NewRecordRefines<T>(t: Table<T>, lists: map<Id, seq<T>>, workflows: map<Id, Workflow>, w: Workflow)
    requires AtHome(t, workflows) && SameLists(t, lists, workflows)
    requires w.id in workflows ==> workflows[w.id].workspace == w.workspace
    requires w.id !in workflows ==> ListOf(lists, w.id) == []
    ensures AtHome(t, workflows[w.id := w]) && SameLists(t, lists, workflows[w.id := w])
  {
    if w.id !in workflows {
      SelectNone(t.rows, w.id, Some(w.workspace), t.nextId);
    }
  }

  lemma SameRecordsSaved(workflows: map<Id, Workflow>, rows: map<Id, WorkflowRow>, w: Workflow)
    requires SameRecords(workflows, rows) && Named(w)
    ensures SameRecords(workflows[w.id := w], rows[w.id := RowOf(w)])
  {
  }

  lemma SaveTables(s: Stores, db: Database, w: Workflow)
    requires Refines(s, db) && Fits(s, Save(w))
    ensures var workflows, agents := s.workflows[w.id := w], SaveAll(db.agents, w.id, w.org, w.workspace, w.agents);
      && AtHome(agents, workflows) && SameLists(agents, s.agents[w.id := w.agents], workflows)
      && AtHome(db.traces, workflows) && SameLists(db.traces, s.traces, workflows)
      && AtHome(db.events, workflows) && SameLists(db.events, s.events, workflows)
  {
    hide SaveAll, List, AtHome, SameLists, Consistent, SameRecords;
    NewRecordRefines(db.agents, s.agents, s.workflows, w);
    NewRecordRefines(db.traces, s.traces, s.workflows, w);
    NewRecordRefines(db.events, s.events, s.workflows, w);
    SaveAllRefines(db.agents, s.agents, s.workflows[w.id := w], w.id, w.org, w.agents);
  }

  lemma SaveRefines(s: Stores, db: Database, w: Workflow)
    requires Refines(s, db) && Fits(s, Save(w))
    ensures Refines(WriteMemory(s, Save(w)), WriteRows(db, Save(w)))
  {
    hide SaveAll, AtHome, SameLists, Consistent, SameRecords, NoStrays;
    SaveTables(s, db, w);
    SameRecordsSaved(s.workflows, db.workflows, w);
    WriteLeavesNoStrays(s, Save(w));
    WriteKeepsConsistent(s, Save(w)) by { RefinesConsistent(s, db); }
  }

  /** The events table: one more row at home lengthens one list. */
  lemma InsertRefines<T>(
    t: Table<T>, lists: map<Id, seq<T>>, workflows: map<Id, Workflow>, id: Id, org: string, item: T)
    requires AtHome(t, workflows) && SameLists(t, lists, workflows) && id in workflows
    ensures AtHome(Insert(t, Row(id, org, workflows[id].workspace, item)), workflows)
    ensures SameLists(Insert(t, Row(id, org, workflows[id].workspace, item)),
                      lists[id := ListOf(lists, id) + [item]], workflows)
  {
    hide List;
    var row := Row(id, org, workflows[id].workspace, item);
    forall other | other in workflows
      ensures List(Insert(t, row), other, Some(workflows[other].workspace))
           == ListOf(lists[id := ListOf(lists, id) + [item]], other)
    {
      InsertLists(t, row, other, Some(workflows[other].workspace));
    }
  }

  lemma AppendRefines(s: Stores, db: Database, id: Id, event: Event, org: string, workspace: string)
    requires Refines(s, db) && Fits(s, Append(id, event, org, workspace))
    ensures Refines(WriteMemory(s, Append(id, event, org, workspace)), WriteRows(db, Append(id, event, org, workspace)))
  {
    WriteLeavesNoStrays(s, Append(id, event, org, workspace));
    hide Insert, List, Consistent, AtHome, SameLists, SameRecords, NoStrays;
    WriteKeepsConsistent(s, Append(id, event, org, workspace)) by { RefinesConsistent(s, db); }
    InsertRefines(db.events, s.events, s.workflows, id, org, event);
  }

  lemma TracesRefine(s: Stores, db: Database, id: Id, traces: seq<Trace>, org: string, workspace: string)
    requires Refines(s, db) && Fits(s, SaveTraces(id, traces, org, workspace))
    ensures Refines(WriteMemory(s, SaveTraces(id, traces, org, workspace)),
                    WriteRows(db, SaveTraces(id, traces, org, workspace)))
  {
    WriteLeavesNoStrays(s, SaveTraces(id, traces, org, workspace));
    hide SaveAll, List, Consistent, AtHome, SameLists, SameRecords, NoStrays;
    WriteKeepsConsistent(s, SaveTraces(id, traces, org, workspace)) by { RefinesConsistent(s, db); }
    SaveAllRefines(db.traces, s.traces, s.workflows, id, org, traces);
  }

  lemma WriteRefines(s: Stores, db: Database, write: Write)
    requires Refines(s, db) && Fits(s, write)
    ensures Refines(WriteMemory(s, write), WriteRows(db, write))
  {
    hide Refines, Fits, WriteMemory, WriteRows;
    match write {
      case Save(w) => SaveRefines(s, db, w);
      case Append(id, event, org, workspace) => AppendRefines(s, db, id, event, org, workspace);
      case SaveTraces(id, traces, org, workspace) => TracesRefine(s, db, id, traces, org, workspace);
    }
  }

  /** All writes of one operation concern one workflow, whose record is saved before anything else. */
  ghost predicate OneHome(writes: seq<Write>, w: Workflow) {
    && SavesFirst(writes, w)
    && forall i :: 1 <= i < |writes| ==>
         match writes[i]
         case Save(_) => false
         case SaveTraces(id, _, _, workspace) => id == w.id && workspace == w.workspace
         case Append(id, _, _, workspace) => id == w.id && workspace == w.workspace
  }

  lemma {:induction false} OneHomeRefines(s: State, db: Database, writes: seq<Write>, w: Workflow, n: nat)
    requires Refines(s.stores, db) && OneHome(writes, w) && Fits(s.stores, Save(w)) && 1 <= n <= |writes|
    ensures Refines(PerformAll(s, writes[..n]).stores, WriteAllRows(db, writes[..n]))
    ensures w.id in PerformAll(s, writes[..n]).stores.workflows
    ensures PerformAll(s, writes[..n]).stores.workflows[w.id] == w
  {
    assert writes[..n][..n - 1] == writes[..n - 1];
    hide Refines, Fits;
    if n == 1 {
      assert writes[..1] == [Save(w)];
      assert PerformAll(s, writes[..0]) == s && WriteAllRows(db, writes[..0]) == db;
    } else {
      OneHomeRefines(s, db, writes, w, n - 1);
    }
    WriteRefines(PerformAll(s, writes[..n - 1]).stores, WriteAllRows(db, writes[..n - 1]), writes[n - 1]);
  }

  /** Who creates a workflow must name organization, workspace and user. */
  predicate NamesTenant(op: Op) {
    op.Create? ==> op.org != "" && op.workspace != "" && op.user != ""
  }

  lemma OpHasOneHome(s: Stores, op: Op, w: Workflow)
    requires Consistent(s) && op.id != LATEST && w.id == op.id
    requires match op
      case Create(id, question, workspace, org, user, clock) =>
        w == NewWorkflow(id, question, workspace, org, user, Reading(clock, 0))
      case Transition(_, status, clock) =>
        op.id in s.workflows && w == Transitioned(s.workflows[op.id], status, clock)
      case CompleteStage(_, stage, policy, clock) =>
        op.id in s.workflows
        && w == Staged(s.workflows[op.id], stage, AgentNames(stage, policy),
                       Reading(clock, |AgentNames(stage, policy)| - 1))
      case ReadStream(_, _) => false
    ensures OneHome(Writes(s, op), w)
  {
    hide AgentNames;
    GetConcrete(s, op.id);
  }

  lemma WritingOpRefines(s: State, db: Database, op: Op, w: Workflow)
    requires Refines(s.stores, db) && op.id != LATEST && !op.ReadStream?
    requires OneHome(Writes(s.stores, op), w) && Fits(s.stores, Save(w))
    ensures Refines(Apply(s, op).stores, ApplyRows(db, op))
  {
    hide PerformAll, WriteAllRows, Refines, WritesFrom, OneHome;
    var writes := Writes(s.stores, op);
    assert writes != [] by { assert OneHome(writes, w); OneHomeSome(writes, w); }
    SameAnswers(s.stores, db, op.id);
    TracesOfUnknown(s.stores, db, op);
    OneHomeRefines(s, db, writes, w, |writes|);
    assert writes[..|writes|] == writes;
  }

  lemma OneHomeSome(writes: seq<Write>, w: Workflow)
    requires OneHome(writes, w)
    ensures writes != []
  {
  }

  /** Hand-offs read before an operation agree too; an unknown id has none. */
  lemma TracesOfUnknown(s: Stores, db: Database, op: Op)
    requires Refines(s, db) && op.id != LATEST
    ensures var prior := RowsTraces(db, op.id);
      (if prior.Some? then prior.value else []) == ListOf(s.traces, op.id)
  {
    SameAnswers(s, db, op.id);
    GetConcrete(s, op.id);
  }

  lemma ApplyRefines(s: State, db: Database, op: Op)
    requires Refines(s.stores, db) && Legal(s, op) && op.id != LATEST && NamesTenant(op)
    ensures Refines(Apply(s, op).stores, ApplyRows(db, op))
  {
    hide PerformAll, WriteAllRows, Refines, AgentNames, Apply, ApplyRows;
    RefinesConsistent(s.stores, db);
    GetConcrete(s.stores, op.id);
    SameAnswers(s.stores, db, op.id);
    match op {
      case Create(id, question, workspace, org, user, clock) =>
        var w := NewWorkflow(id, question, workspace, org, user, Reading(clock, 0));
        OpHasOneHome(s.stores, op, w);
        WritingOpRefines(s, db, op, w);
      case Transition(id, status, clock) =>
        if id in s.stores.workflows {
          var w := Transitioned(s.stores.workflows[id], status, clock);
          OpHasOneHome(s.stores, op, w);
          WritingOpRefines(s, db, op, w);
        } else {
          NothingWritten(s, db, op);
        }
      case CompleteStage(id, stage, policy, clock) =>
        if id in s.stores.workflows {
          var w := Staged(s.stores.workflows[id], stage, AgentNames(stage, policy),
                          Reading(clock, |AgentNames(stage, policy)| - 1));
          OpHasOneHome(s.stores, op, w);
          WritingOpRefines(s, db, op, w);
        } else {
          NothingWritten(s, db, op);
        }
      case ReadStream(_, _) => NothingWritten(s, db, op);
    }
  }

  lemma NothingWritten(s: State, db: Database, op: Op)
    requires op.ReadStream? || (!op.Create? && GetWorkflow(s.stores, op.id).None? && RowsWorkflow(db, op.id).None?)
    ensures Apply(s, op).stores == s.stores && ApplyRows(db, op) == db
  {
  }

  lemma RefinesConsistent(s: Stores, db: Database)
    requires Refines(s, db)
    ensures Consistent(s) && forall id :: id in s.workflows ==> Named(s.workflows[id])
  {
  }

  lemma EmptyRefines()
    ensures Refines(EMPTY.stores, NO_ROWS)
  {
  }

  lemma {:induction false} RunRefines(s: State, db: Database, ops: seq<Op>)
    requires Refines(s.stores, db) && LegalRun(s, ops)
    requires forall i :: 0 <= i < |ops| ==> ops[i].id != LATEST && NamesTenant(ops[i])
    ensures Refines(Run(s, ops).stores, RunRows(db, ops))
    decreases |ops|
  {
    hide Apply, ApplyRows, Refines;
    if ops != [] {
      ApplyRefines(s, db, ops[0]);
      RunRefines(Apply(s, ops[0]), ApplyRows(db, ops[0]), ops[1..]);
    }
  }

  /** Store refinement: after any operations on any workflows the two back ends give the same workflow, the same
      events and the same hand-offs for every concrete id. */
  lemma {:induction false} StoreRefinement(ops: seq<Op>, id: Id)
    requires LegalRun(EMPTY, ops) && id != LATEST
    requires forall i :: 0 <= i < |ops| ==> ops[i].id != LATEST && NamesTenant(ops[i])
    ensures var s, db := Run(EMPTY, ops).stores, RunRows(NO_ROWS, ops);
      && RowsWorkflow(db, id) == GetWorkflow(s, id)
      && RowsEvents(db, id) == GetEvents(s, id)
      && RowsTraces(db, id) == GetTraces(s, id)
  {
    EmptyRefines();
    hide Run, RunRows, LegalRun, Refines, GetWorkflow, GetEvents, GetTraces, RowsWorkflow, RowsEvents, RowsTraces;
    RunRefines(EMPTY, NO_ROWS, ops);
    SameAnswers(Run(EMPTY, ops).stores, RunRows(NO_ROWS, ops), id);
  }

  /** Naming the tenant is exactly what is needed: with a blank organization, workspace or user the database
      answers with a default the maps never saw. */
  lemma BlankTenantDiffers(s: State, db: Database, op: Op)
    requires Refines(s.stores, db) && op.Create? && Legal(s, op)
    ensures RowsWorkflow(ApplyRows(db, op), op.id) == GetWorkflow(Apply(s, op).stores, op.id) <==> NamesTenant(op)
  {
    if NamesTenant(op) {
      ApplyRefines(s, db, op);
      SameAnswers(Apply(s, op).stores, ApplyRows(db, op), op.id);
    } else {
      CreateEffect(s, op);
      ApplyKeepsConsistent(s, op);
      GetConcrete(Apply(s, op).stores, op.id);
      var writes := WritesFrom(RowsWorkflow(db, op.id), [], op);
      assert writes[..1][..0] == [];
      assert WriteAllRows(db, writes[..1]) == WriteRows(db, writes[0]);
    }
  }
}
