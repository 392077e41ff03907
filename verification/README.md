# A Dafny model of the analytics orchestrator

This project models the orchestration core of the repository and proves what it keeps over every run. Each module
follows one source file or one part of it. Code that changes state is a class or a method with loops, tied by its
contract to a function of the inputs or of the old state; what the source promises is then proved about those
functions for every input, every run or every reachable state.

- **The SQL workflow** (`Workflow`, `WorkflowNodes`, `RetryVerdicts`, `GraphDriver`, `LinearDriver`, `Retry`). The nodes
  are functions of the shared state and of what the environment answers: the model's text, the schema, the outcome of
  the query. Both drivers are modelled - the compiled graph as a step function, the loop as a method - and every theorem
  quantifies over an arbitrary stream of answers, one a node.
- **The workflow service** (`Models`, `Stores`, `Service`, `Effects`, `StreamCache`, `Alias`, `Fingerprint`, `Ledger`,
  `RowStores`). Operations are lists of writes to split stores; `OrchestrationService` is the object that performs
  them, with its memoised stream view. Clock readings are arbitrary inputs.
- **The publisher** (`Runtime`, `Publication`, `Delivery`, `Publisher`). Coroutines are state machines over the steps
  between their awaits, interleaved in any way, with broadcasts that may raise. The wire is the list of messages handed
  to the broadcaster. `OrchestrationRuntime` is the object itself, whose `run` is shown to be one of the interleavings.
- **The dependency graph** (`Scheduler`, `ExecutionGraph`), for any graph whose nodes are listed after their
  dependencies, and the replay of a recorded workflow into the default one.
- **Text** (`Text`, `Guardrails`, `SchemaText`, `SqlTables`, `SqlColumns`, `SqlIntelligence`). The regular expressions
  are written out as scanners over ASCII text.
- **Loops with totals and bounds** (`Telemetry`, `LlmRetry`, `Investigation`, `Products`, `Embedding`, `VectorStore`,
  `Sorting`, `Rounding`). Floating point is idealised to real numbers; rounding is modelled where the source rounds
  (ties to even), and square roots are any number with the right square.

Every induction is written out; no lemma relies on the verifier's automatic induction.

Some results are about where the code does not do what one might expect:

- The diagram in `docs/architecture.md` (line 39) shows reflection going back to generation. The compiled graph goes back
  to validation (`GraphDriver`); the loop goes back to generation (`LinearDriver`), so there the SQL a reflection
  produced is regenerated before anything looks at it (`Regenerated` in `LinearDriver.Finished`).
- The four retry verdicts on a failed execution part exactly when the exception has no text and retries are left
  (`RetryVerdicts.ExecutionVerdicts`), those on a failed reflection exactly when it spent the last retry
  (`RetryVerdicts.ReflectionVerdicts`).
- Reads through the alias `workflow:latest` can be stale. A write by concrete id drops the slot of that id only; the
  cache key holds no start time; and the alias is given the events stored under its own name, not those of the workflow
  it stands for, so their number does not show the change either. Two workflows started at different times show it
  (`Alias.AliasReadsGoStale`), and one that is started twice is enough (`Alias.RestartGoesStale`). After a current read,
  and while the same workflow is the one saved last, the next read is current exactly if the key has changed or the
  start time has not (`Alias.AliasReadIsCurrentIff`). The concrete ids are exactly the ids whose reads are always current
  (`Alias.NeverStaleIffConcrete`); all other results about the stream view are for them.
- A coroutine that breaks drops the updates it still had to publish. They reach the wire only if somebody reads the
  stream for those kinds again (`Delivery.BrokenLosesUpdate`); the stage updates of a failed run are such updates, since
  the handler publishes other kinds. What a coroutine that succeeds read is on the wire whatever happened to others
  (`Delivery.CallIsPublished`).
- The alias of a table in a statement is missed where the keyword of the next join has been read as the alias of the
  table before it (`SqlTables.DeclaredIsFound`), and of `a.b.c` only `a.b` counts as a column
  (`SqlColumns.PairIsFound`). A column of a table that cannot be found is not reported.
- A blank organization, workspace or user reads back from the SQLite stores as a default
  (`RowStores.BlankTenantDiffers`).
- No stage completes the memory node of the replayed graph, so from SQL generation on its dependencies do not hold
  (`ExecutionGraph.ClosedIff`), and after a full run that node alone still counts as runnable.
- A column type that ends in a parenthesis, such as `NVARCHAR(40)`, loses it between printing and parsing
  (`SchemaText.PrintThenParse`).

## Model

| member | source | states |
|---|---|---|
| WorkflowNodes.GenerationKeeps | graph/workflow.py:520-588 | generation keeps the run sound, leaves one trace entry and one telemetry step, sets stripped non-empty SQL or a non-empty error; the early guard cannot fire |
| WorkflowNodes.ValidationKeeps | graph/workflow.py:591-665 | validation either clears exactly the SQL in the state, logging it as accepted and acceptable under the schema, or leaves an error; the run stays sound |
| WorkflowNodes.ReflectionKeeps | graph/workflow.py:668-734 | with a retry left, reflection spends exactly one, replaces the SQL or keeps it with an error, and keeps the run sound |
| WorkflowNodes.SkipKeeps | graph/workflow.py:838-841 | skipping reflection leaves an entry exactly when there is none and keeps the SQL cleared |
| WorkflowNodes.ExecutionKeeps | graph/workflow.py:737-827 | run on cleared SQL, execution queries that very text and delivers its rows, or leaves an error and no rows |
| WorkflowNodes.SchemaKeeps | graph/workflow.py:361-407 | schema retrieval leaves an error exactly when no schema could be loaded |
| WorkflowNodes.MemoryKeeps | graph/workflow.py:410-448 | memory retrieval adds one trace entry and one telemetry step and keeps the run sound |
| Workflow.MeasuredKeepsMetered | graph/workflow.py:128-137 | after every node that records telemetry the payload's totals are the sums of its steps, and the steps are, in order, the metering entries of the trace |
| RetryVerdicts.ValidationVerdicts | graph/workflow.py:614-638 | after a failed validation policy, recovery hint, retry decision and router agree: retry exactly while retries are left, else escalate and end |
| RetryVerdicts.ExecutionVerdicts | graph/workflow.py:795-847 | after a failed execution policy and router agree; all four agree exactly if the exception has a text or no retry is left |
| RetryVerdicts.ReflectionVerdicts | graph/workflow.py:689-713 | after a failed reflection hint and decision agree; the policy agrees with them exactly unless the reflection spent the last retry |
| RetryVerdicts.VerdictsOnEveryRun | graph/workflow.py:830-847 | at every point of every run of the compiled graph: the verdicts on a failed validation agree, those on a failed execution exactly if the exception has a text or no retry is left, and the run goes on to a reflection exactly while retries are left, else ends |
| RetryVerdicts.VerdictsInTheLoop | graph/workflow.py:993-1040 | the same at every point of every run of the loop, with its own inline decisions; a failed reflection ends it whatever the verdicts say |
| GraphDriver.StepKeeps | graph/workflow.py:850-889 | whatever the environment answers, every node of the compiled graph keeps the invariant and lowers the lexicographic measure (retries left, node) |
| GraphDriver.ReachableInv | graph/workflow.py:850-889 | the invariant holds in every reachable state |
| GraphDriver.GuardNeverFires | graph/workflow.py:524-525 | in every reachable state the retry budget holds and the early guard of SQL generation does not fire |
| GraphDriver.RunEnds | graph/workflow.py:850-889 | every run of the compiled graph ends, in a state that satisfies the invariant, with the policy it began with and with the schema it had once one was asked for |
| GraphDriver.GraphRun | graph/workflow.py:830-889 | crash exactly without a schema; otherwise one generation, reflections = retries spent, validations one more, at most one more execution, at most 4n+7 nodes; no error exactly by a query that delivered, an error only with the budget spent |
| GraphDriver.QueriedIsAcceptable | graph/workflow.py:614-638 | every SQL ever sent to the database is acceptable under the schema: fence-stripped it begins with SELECT or WITH, has no blocked word outside comments, balanced parentheses, semicolons only at its tail, only known tables, and no reference to a column its known table lacks |
| GraphDriver.ReflectionSeesFailure | graph/workflow.py:482-517 | whenever a run comes to a reflection the state holds the very SQL that failed, the error and whether validation or execution raised it |
| GraphDriver.ReflectionIsChecked | graph/workflow.py:887 | the SQL a reflection produced is the very next thing validated |
| LinearDriver.LinearReachable | graph/workflow.py:895-1040 | in every state the loop can reach the run is sound, generations, validations and executions are in step with the retries spent, and a run that is done is honest, with an error only where a node failed or the budget is spent |
| LinearDriver.RunLinear | graph/workflow.py:895-1040 | the loop ends for every behaviour of its environment, having followed the driver's edges; the run is sound and honest, at most one more generation, validation and execution than retries, at most 5n+7 nodes, every validation right after a successful generation |
| LinearDriver.ReflectionSeesFailure | graph/workflow.py:482-517 | in the loop too, whenever a run comes to a reflection the state holds the very SQL that failed, the error and its source |
| LinearDriver.Repaired | graph/workflow.py:993-1005 | a reflection in the loop spends one retry and goes back to its head, or ends the run with an error |
| LinearDriver.Executed | graph/workflow.py:1018-1040 | after execution the loop reflects exactly on an error with retries left, else the run is finished and honest |
| Retry.DelaysGrow | backend/retry.py:80-84 | retry delays are never negative and never shrink from one retry to the next |
| Retry.DelayCapped | backend/retry.py:80-84 | no delay exceeds the cap, up to rounding; the first retry waits the base delay if the cap allows |
| Rounding.Round3Near | backend/retry.py:84 | rounding at three decimals moves a delay by at most half a millisecond |
| Service.OrchestrationService.CreateWorkflow | backend/services.py:114-160 | the object's new state is that of the create operation: record saved, creation event appended, queued and empty |
| Service.OrchestrationService.TransitionWorkflow | backend/services.py:301-342 | a lifecycle transition saves the record with its telemetry rebuilt and appends one or two events; an unknown id raises and changes nothing |
| Service.OrchestrationService.TransitionStage | backend/services.py:344-418 | completing a stage saves stage and agents, then the longer list of hand-offs, then one event a hand-off, the investigation notice of the last stage and the stage event |
| Service.OrchestrationService.GetStreamUpdates | backend/services.py:246-277 | the answer and the cache are those of the memoised read |
| Service.OrchestrationService.RunWorkflow | backend/services.py:187-194 | start, the six stages in order, complete; if one of these calls raises, the calls before it and then the failure; an unknown id raises and changes nothing |
| Service.UnknownRun | backend/services.py:306-308 | operations on an id nobody created change nothing at all |
| Service.KnownStays | backend/services.py:285-299 | no operation forgets a workflow |
| Effects.TransitionEffect | backend/services.py:301-342 | a transition in closed form: one record changed, the events it appends, traces untouched |
| Effects.StageEffect | backend/services.py:344-418 | a completed stage in closed form: record, appended events and appended hand-offs |
| Effects.CreateEffect | backend/services.py:114-160 | a creation in closed form |
| Effects.UntouchedKept | backend/services.py:301-439 | an operation changes nothing about any other workflow |
| Effects.ApplyKeepsConsistent | backend/services.py:208-230 | telemetry and agent stores always repeat what the record says |
| StreamCache.CacheCoherence | backend/services.py:246-277 | after every sequence of operations, reading the stream of a concrete id gives what recomputing from the stores would give |
| StreamCache.ReadIsFresh | backend/services.py:253-266 | in a coherent state a read answers with a recomputation, and leaves the state coherent |
| StreamCache.RunKeepsCoherent | backend/services.py:285-299 | coherence is kept by every sequence of operations, through the two invalidations |
| StreamCache.StableInEveryView | backend/services.py:528-547 | an update stamped from the stores is in every recomputation of the view, whatever the clock says |
| StreamCache.ClockFree | backend/services.py:528-547 | the view does not depend on the clock when every agent's stage is recorded |
| Alias.AliasReadsGoStale | backend/services.py:264-266 | two workflows started one after the other: the second read through the alias is stale exactly if they started at different times |
| Alias.RestartGoesStale | backend/services.py:246-277 | one workflow started, read through the alias and started again: the next read is stale exactly if the starts differ |
| Alias.AliasReadIsCurrentIff | backend/services.py:246-277 | on every run, after a current read through the alias and while the same workflow was saved last, the next read is current exactly if the cache key changed or the start time did not; always if it was not started anew |
| Alias.NeverStaleIffConcrete | backend/services.py:246-277 | the ids whose reads are current after every sequence of operations are exactly the concrete ones |
| Fingerprint.KeyIsFaithful | backend/services.py:253-263 | two states of one workflow along a run have the same cache key exactly if they have the same view |
| Fingerprint.RunForward | backend/services.py:301-418 | stages, agents and events only grow, and every change of the view appends an event |
| Fingerprint.InvalidationIsRedundant | backend/services.py:285-286 | without any invalidation reads by concrete id still answer with a recomputation |
| Ledger.EventLedger | backend/services.py:344-439 | after every sequence of operations hand-off events = stored traces = agent executions - stages, stage events = stages, investigation events = insight stages |
| Ledger.FreshRunTotals | backend/services.py:187-194 | a fresh run ends completed with six stages in order and counts that depend on the agent policy alone (under the default 10 agents, 4 traces, 16 events), timed from its start to its completion |
| Ledger.FailedRunTotals | backend/services.py:187-194 | a fresh run one of whose calls raises ends failed, with exactly the stages of the calls before in order, counts that depend on the policy and on which call it was, timed from its start, or from the failure if the start raised |
| Ledger.CompletedTimed | backend/services.py:580-616 | completing or failing a started workflow keeps its start time, stamps the end, counts the whole milliseconds between, none if the clock went backwards, and prices the tokens |
| RowStores.StoreRefinement | backend/services.py:208-244 | for every sequence of operations by named tenants the SQLite rows and the maps give the same workflow, events and traces for every id |
| RowStores.BlankTenantDiffers | backend/storage.py:83-96 | after a creation the two agree exactly if organization, workspace and user are named |
| RowStores.SaveAllLists | backend/storage.py:714-811 | delete-then-insert leaves exactly the new rows for its workflow and every other listing as it was |
| RowStores.InsertLists | backend/storage.py:635-670 | an appended row lengthens its own workflow's listing and no other |
| RowStores.WriteRefines | backend/storage.py:584-811 | every write keeps rows and maps in agreement, rows in their workflow's workspace |
| RowStores.RowTable.ReplaceAll | backend/storage.py:714-745 | the table after the loop is the delete-then-insert of its contents |
| RowStores.RowTable.ListRows | backend/storage.py:746-760 | the loop lists the matching rows in key order |
| Runtime.PublishedAtMostOnce | backend/runtime.py:77-95 | however coroutines interleave and whatever raises, no update key is published twice and the dedup set is exactly the keys on the wire |
| Delivery.CallIsPublished | backend/runtime.py:51-95 | however coroutines interleave, whatever raises in others and whoever else moves the workflow: a coroutine that ends in success has put every store-stamped update it was to publish after its n-th call on the wire exactly once per key |
| Delivery.StepsKeepOwed | backend/runtime.py:77-95 | an update a coroutine has read stays in its hands or on the wire, through every step of anybody, until that coroutine itself breaks |
| Delivery.LastRunPublishesAll | backend/runtime.py:51-95 | a run that succeeds and that nobody disturbs after its sixth call leaves every store-stamped update of the final stream on the wire exactly once, whatever failed before it |
| Delivery.BrokenLosesUpdate | backend/runtime.py:66-95 | a coroutine that breaks with a stage's update in hand that nobody else has loses it: while nobody moves the workflow on it is in the stream and never on the wire |
| Publication.EverythingPublishedOnce | backend/runtime.py:51-95 | when every coroutine of a workflow has succeeded and no one else moved it, every update of its stream stamped from the stores is on the wire exactly once per key |
| Publication.StepsKeepCoverage | backend/runtime.py:51-95 | at every moment each store-stamped update of the stream is published or in some coroutine's hands, as long as none of the workflow's coroutines has broken |
| Publisher.OrchestrationRuntime.BroadcastNew | backend/runtime.py:77-95 | the loop publishes the updates of the kinds due in order, each key once, up to the broadcast that raises |
| Publisher.OrchestrationRuntime.Run | backend/runtime.py:51-75 | a run makes its eight calls, broadcasts after each and sends the placeholder; where a call or a broadcast raises the failure is recorded and broadcast, and what raises then goes on to the caller |
| Publisher.OrchestrationRuntime.RecordFailure | backend/runtime.py:66-75 | the handler records the failure and broadcasts it; it ends reported, or raised if the id is unknown or a broadcast raises again |
| Publisher.LoneRunReached | backend/runtime.py:51-75 | that run, wherever it raises, is one of the interleavings of the machine |
| Publisher.LoneRunPublishes | backend/runtime.py:51-95 | one workflow run by one coroutine: no update is on the wire twice whatever raises, and after a success every update stamped from the stores is there exactly once |
| Scheduler.Transition | backend/orchestration.py:82-121 | a transition changes only nodes of its phase and keeps ids, names, phases, dependencies and edges |
| Scheduler.RunnableNodes | backend/orchestration.py:123-134 | returns exactly the queued nodes whose dependencies are all completed |
| Scheduler.ReadyOrRunnable | backend/execution_graph.py:54-74 | runnable exactly means ready with nothing skipped among the dependencies |
| Scheduler.SomethingRuns | backend/orchestration.py:123-134 | on any topologically listed graph in order, nothing is runnable exactly when everything is completed |
| Scheduler.DrainsInStep | backend/orchestration.py:82-134 | every schedule of runnable nodes stays in order, takes one step a queued node, is finished exactly when it is that long, and until then can go on |
| Scheduler.CompletingKeepsOrder | backend/orchestration.py:82-121 | completing a runnable node leaves an orderly graph of the same shape with one node fewer to do |
| Scheduler.CountsPartition | backend/orchestration.py:152-163 | the six status counts of the summary account for every node |
| ExecutionGraph.ExecutionGraphFromWorkflow | backend/execution_graph.py:20-51 | the loop replays the recorded stages and marks the optional nodes |
| ExecutionGraph.GraphShows | backend/execution_graph.py:20-51 | node by node, the graph shows the status last recorded for its stage, the two optional nodes skipped once the workflow is over |
| ExecutionGraph.ClosedIff | backend/execution_graph.py:10-36 | a replayed graph keeps its dependencies exactly if only the first two stages are recorded, the second not without the first |
| ExecutionGraph.ReadyIsRunnable | backend/execution_graph.py:54-74 | in a replayed graph ready and runnable nodes are the same |
| ExecutionGraph.OnlyMemoryRuns | backend/execution_graph.py:20-51 | after all six stages the memory node alone is runnable |
| ExecutionGraph.RunRecordsCompleted | backend/services.py:344-418 | every stage and agent the service ever records is completed, so these results hold of every workflow it stores |
| ExecutionGraph.ReplayFramesFromUpdates | backend/execution_graph.py:77-93 | one numbered frame an update, with its phase and status texts and the whole milliseconds since the one before |
| ExecutionGraph.FramesAfterRun | backend/execution_graph.py:86-87 | after every sequence of operations a frame's status is completed exactly for stages and agents; every other frame repeats its update's type |
| ExecutionGraph.ElapsedSpans | backend/execution_graph.py:127-133 | for updates in time order the elapsed times add up to the span, short by less than a millisecond a frame |
| Guardrails.NoCommentLeft | guardrails.py:7 | after stripping there is no `--` and no closed block comment |
| Guardrails.StripCommentsTwice | guardrails.py:7 | comment stripping is idempotent |
| Guardrails.LeftmostFirst | guardrails.py:7 | the text before the leftmost comment stays, the comment becomes one space, the rest is stripped in turn |
| Guardrails.FoundIffMaximal | guardrails.py:9 | searching with word boundaries finds exactly the maximal words |
| Guardrails.SafeIffNoBlockedWord | guardrails.py:6-9 | SQL is safe exactly if no maximal word of its comment-free lower-case text is blocked |
| SchemaText.FormatSchema | backend/connectors.py:164-179 | the loop prints one block a table, joined by blank lines |
| SchemaText.ParseSchemaTables | semantic.py:66-80 | the loop parses the blocks in order |
| SchemaText.PrintThenParse | semantic.py:66-80 | parsing a printed schema gives every table and column back in order, but for untyped columns and the final parenthesis of a type |
| SchemaText.RoundTripExactly | backend/connectors.py:164-179 | printing and parsing undo each other exactly on schemas whose columns are typed with no final parenthesis |
| SqlIntelligence.ValidateSqlAgainstSchema | backend/sql_intelligence.py:122-183 | errors in order: form, unknown tables, columns their known table lacks; warnings for plain columns no table has, four joins, no limit; status and risk follow from them |
| SqlIntelligence.AcceptedIff | backend/sql_intelligence.py:122-172 | accepted exactly if the fence-stripped SQL is acceptable under the parsed schema: first word, no blocked word, parentheses, semicolons, tables known, and no qualified reference whose table, through its alias, is known and lacks the column |
| SqlIntelligence.PassedIff | backend/sql_intelligence.py:146-171 | passed without warning exactly if besides every plain column selected belongs to some table, the word join occurs at most three times and limit occurs |
| SqlIntelligence.RiskFollows | backend/sql_intelligence.py:281-291 | the risk score lies in [0, 1]; an error makes the risk at least medium, two make it high, a pass with at most one subquery is low |
| SqlIntelligence.CountIsWords | backend/sql_intelligence.py:269-272 | counting a word with boundaries counts how often it is among the maximal words |
| SqlIntelligence.SemicolonCheck | backend/sql_intelligence.py:135-136 | the test passes exactly if every semicolon has only semicolons after it |
| SqlIntelligence.QueryCheck | backend/sql_intelligence.py:131-132 | the test passes exactly if the first maximal word is select or with in some case |
| SqlIntelligence.PrintedTablesKnown | backend/sql_intelligence.py:140-144 | the check knows exactly the tables of the database whose printed schema it is given |
| SqlTables.FoundIsReference | backend/sql_intelligence.py:241-242 | every extracted name stands in the text after a from or join |
| SqlTables.ReferenceIsFound | backend/sql_intelligence.py:241-242 | every such reference is extracted, unless its keyword was read as part of another name |
| SqlTables.DistinctNames | backend/sql_intelligence.py:241-242 | the list of tables has each found name once |
| SqlTables.ExtractAliases | backend/sql_intelligence.py:245-252 | the loop builds the map of the declarations found |
| SqlTables.LastDeclarationWins | backend/sql_intelligence.py:245-252 | an alias is in the map exactly if it is declared and not an excluded word, and stands for the table of its last declaration |
| SqlTables.FoundIsDeclared | backend/sql_intelligence.py:245-252 | every alias found stands in the text after its table, with white space or the word as between |
| SqlTables.DeclaredIsFound | backend/sql_intelligence.py:245-252 | every such declaration is found, unless its keyword was read as part of another |
| SqlColumns.ExtractReferencedColumns | backend/sql_intelligence.py:255-266 | the loop collects the qualified names outside quotes and the names of the select list, sorted |
| SqlColumns.ReferencesAre | backend/sql_intelligence.py:255-266 | the references are strictly increasing and are exactly those two kinds of names |
| SqlColumns.NoQuotesLeft | backend/sql_intelligence.py:256 | after quoted text is removed no pair of quotes is left |
| SqlColumns.UnquotedTwice | backend/sql_intelligence.py:256 | removing quoted text is idempotent |
| SqlColumns.FoundIsPair | backend/sql_intelligence.py:257 | every qualified name found stands in the text as two maximal names with a dot between |
| SqlColumns.PairIsFound | backend/sql_intelligence.py:257 | every such pair is found, unless its first name was read as the second of the pair before |
| Telemetry.ValidateTelemetryPayload | backend/telemetry.py:91-126 | the loop cleans the steps and rebuilds every total, keeping all other keys of the payload and of its steps |
| Telemetry.ValidatedTwice | backend/telemetry.py:91-126 | a validated payload adds up, and validating it again changes nothing, whatever id would be drawn |
| Telemetry.LatestIsLatest | backend/telemetry.py:108-123 | the error reported, details included, is that of the latest step with one, the model that of the latest step that names one |
| Telemetry.RecordAppends | graph/workflow.py:128-137 | recording appends exactly one step and keeps the totals equal to the sums |
| Telemetry.TelemetryAggregate | backend/telemetry.py:203-234 | one row a phase in order of appearance with the totals of exactly its events; rows add up to the totals, categories to the failures, phases are distinct; failure rate and total cost rounded |
| Telemetry.RatesWithin | backend/telemetry.py:226-231 | the failure rate lies in [0, 100], within rounding of the share of failed events, 0 if none and 100 if all failed; the reported cost is within rounding of the sum over the phases |
| Telemetry.RowsAddUp | backend/telemetry.py:209-224 | splitting events by phase loses no count, latency, token, cost or failure |
| Telemetry.CategoriesAddUp | backend/telemetry.py:221-224 | every failure falls into exactly one category |
| LlmRetry.AttemptModel | llm.py:259-290 | at most `max_attempts` attempts; all but the last were refused with a text; the model is given up on a text-less refusal or the last attempt |
| LlmRetry.GenerateSql | llm.py:235-306 | models in order, each given up before the next; the first answer is returned; giving up means all were given up; the sleeps are those between attempts |
| LlmRetry.DelaysBounded | backend/retry.py:80-84 | the delays between attempts never shrink and add up to the ideal total within rounding |
| LlmRetry.SleepBounded | llm.py:257-290 | total sleep is at most the ideal total of one model's retries, plus rounding, for each model tried |
| LlmRetry.GivingUpIsFailure | llm.py:221-225 | the text returned after giving up is what the workflow's nodes take for a failure |
| Investigation.RunInvestigation | investigation.py:151-261 | not skipped: one query record and telemetry step a chosen finding, lifecycle = queries + 2, evidence = the successful queries in order, completed exactly with evidence, totals = step sums, latency = step sum + elapsed, score in [0, 1]; the log of SQL handed to the database holds only safe texts, one for each evidence and each query that raised |
| Investigation.ChosenBySeverity | investigation.py:85-87 | the findings looked into are a prefix of the stable order by severity, as many as asked for and there are |
| Investigation.OnlySafeSqlRuns | investigation.py:205-249 | every text an investigation ever sends to the database is SQL, not a report of failure, with no blocked maximal word outside comments; each text sent left evidence or raised |
| Investigation.ScoreWithin | investigation.py:47-54 | the score lies in [0, 1] |
| Embedding.EmbedText | backend/memory.py:76-81 | counting in place, then dividing by the length, gives the embedding of the text |
| Embedding.HistogramCounts | backend/memory.py:77-79 | entry i of the vector is the number of tokens hashed to i |
| Embedding.Normalized | backend/memory.py:80-81 | dividing by the length makes a unit vector, except of the zero vector |
| Embedding.ScoreBounds | backend/memory.py:160-161 | scores of normalised vectors lie in [0, 1] and are 1 exactly for one and the same unit vector |
| Embedding.ScoresOfTexts | backend/memory.py:102-131 | a text scores 1 against itself unless blank, and a score of 1 means the same embedding |
| VectorStore.RankedAre | backend/memory.py:112-131 | the ranking is the records in scope, each once with its score, best first, equals in insertion order |
| VectorStore.SearchFinds | backend/memory.py:102-131 | what is returned heads the ranking; every score is in [0, 1]; nothing left out beats anything returned |
| VectorStore.ExactOnTop | backend/memory.py:102-131 | a stored non-blank text equal to the query puts a score of 1 on top |
| VectorStore.InMemoryVectorMemoryStore.Upsert | backend/memory.py:89-100 | the record is appended with the embedding of its text |
| Sorting.SortStable | backend/services.py:275 | sorting keeps items with equal keys in their order |
| Sorting.SortSorts | backend/services.py:275 | the result is a sorted rearrangement of the input |
| Text.StripSplits | backend/sql_intelligence.py:305-306 | stripping removes white space at the two ends only, and leaves none there |

## Left out

- SqlIntelligence.ValidateSqlAgainstSchema: its confidence, which rests on inferred relationships, the repair hint and
  the flags of the complexity record that nothing else reads are not modelled.
- Publication.EverythingPublishedOnce: speaks of workflows whose coroutines all succeeded and that nobody else moved;
  Delivery.CallIsPublished needs neither, Delivery.LastRunPublishesAll only that nobody else moves the workflow after
  the sixth call of its last run. Agents of the four extra roles are stamped
  with the current time when read and are covered by none of them.
- ExecutionGraph.ExecutionGraphFromWorkflow: the metadata copied onto the graph and its nodes is left out.
- Service.OrchestrationService.RunWorkflow: the call that raises does so before it writes.
- RowStores.StoreRefinement: needs named tenants (see RowStores.BlankTenantDiffers) and concrete ids; the PostgreSQL
  stores and the JSON text of the stage list are not modelled.
- StreamCache.CacheCoherence: is about concrete ids; Alias.NeverStaleIffConcrete shows why.
- LlmRetry.GenerateSql: the streaming variant has the same loops around a token loop and is not modelled apart.
- Investigation.RunInvestigation: schema retrieval and callbacks that raise are not modelled.
- GraphDriver.GraphRun: LangGraph's own recursion limit is not modelled.
- The agent graph, stage confidences, prompts, explanations and history records the workflow state carries besides.
- Nodes whose helpers raise outside their own handlers: memory retrieval, and bookkeeping after a model call.
- Usage records and vector-memory upserts of the service: written and never read by what is modelled.
- A store write that fails half-way; writes of one operation happen together as far as other coroutines see.
- Texts of event messages, as values of a datatype; two messages are equal exactly if their templates and parts are.
- Unicode beyond ASCII, in case folding, white space and word characters.
- Floating-point error; times are integers whose order is that of their text.
- Hash collisions of embedding tokens are allowed (any hash function); an embedding of no dimensions is not.
- User interface, HTTP routes, authentication, message buses, scheduled jobs, scorecards, data profiling.
