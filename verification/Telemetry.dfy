/** Telemetry payloads and their aggregation (backend/telemetry.py). */
module Telemetry {
  import opened Rounding
  import opened Wrappers
  import opened Text

  /** A text that is there and not empty. */
  predicate Present(s: Option<string>) {
    s.Some? && s.value != ""
  }

  // ---------------------------------------------------------------- payloads

  datatype Fault = Fault(kind: Option<string>, message: Option<string>, details: Option<map<string, string>>)

  const NO_FAULT := Fault(None, None, None)

  /** One recorded step as it arrives: a count may be missing or null, and an entry may be no record at all. `others`
      are the keys nothing here looks at. */
  datatype Step =
    | NotARecord
    | Step(name: string, model: string, prompt: Option<int>, completion: Option<int>, total: Option<int>,
           cost: Option<real>, latency: Option<int>, usageAvailable: bool, fault: Fault, others: map<string, string>)

  datatype Payload = Payload(
    schemaVersion: string, correlationId: string, steps: seq<Step>, prompt: int, completion: int, total: int,
    cost: real, latency: int, model: string, usageAvailable: bool, fault: Fault, others: map<string, string>)

  const SCHEMA_VERSION := "2026-05-analytics-v1"

  function IntOr0(x: Option<int>): int { if x.Some? then x.value else 0 }

  function RealOr0(x: Option<real>): real { if x.Some? then x.value else 0.0 }

  function CleanStep(s: Step): Step
    requires s.Step?
  {
    s.(prompt := Some(IntOr0(s.prompt)), completion := Some(IntOr0(s.completion)), total := Some(IntOr0(s.total)),
       cost := Some(RealOr0(s.cost)), latency := Some(IntOr0(s.latency)))
  }

  /** The records among the entries, with every count filled in. */
  function Clean(steps: seq<Step>): seq<Step> {
    if steps == [] then []
    else
      var last := steps[|steps| - 1];
      Clean(steps[..|steps| - 1]) + (if last.Step? then [CleanStep(last)] else [])
  }

  function Sum(measure: Step -> int, steps: seq<Step>): int {
    if steps == [] then 0 else Sum(measure, steps[..|steps| - 1]) + measure(steps[|steps| - 1])
  }

  function PromptOf(s: Step): int { if s.Step? then IntOr0(s.prompt) else 0 }
  function CompletionOf(s: Step): int { if s.Step? then IntOr0(s.completion) else 0 }
  function TotalOf(s: Step): int { if s.Step? then IntOr0(s.total) else 0 }
  function LatencyOf(s: Step): int { if s.Step? then IntOr0(s.latency) else 0 }

  function CostSum(steps: seq<Step>): real {
    if steps == [] then 0.0
    else
      var last := steps[|steps| - 1];
      CostSum(steps[..|steps| - 1]) + (if last.Step? then RealOr0(last.cost) else 0.0)
  }

  /** The model of the latest step that names one. */
  function LatestModel(steps: seq<Step>, fallback: string): string {
    if steps == [] then fallback
    else if steps[|steps| - 1].Step? && steps[|steps| - 1].model != "" then steps[|steps| - 1].model
    else LatestModel(steps[..|steps| - 1], fallback)
  }

  predicate HasError(s: Step) {
    s.Step? && (Present(s.fault.kind) || Present(s.fault.message))
  }

  function LatestError(steps: seq<Step>): Fault {
    if steps == [] then NO_FAULT
    else if HasError(steps[|steps| - 1]) then steps[|steps| - 1].fault
    else LatestError(steps[..|steps| - 1])
  }

  predicate AnyUsage(steps: seq<Step>) {
    exists i :: 0 <= i < |steps| && steps[i].Step? && steps[i].usageAvailable
  }

  /** The totals of a payload are those of its steps. */
  predicate Summed(p: Payload) {
    && p.prompt == Sum(PromptOf, p.steps) && p.completion == Sum(CompletionOf, p.steps)
    && p.total == Sum(TotalOf, p.steps) && p.latency == Sum(LatencyOf, p.steps) && p.cost == CostSum(p.steps)
  }

  function Validated(p: Payload, freshId: string): Payload {
    var steps := Clean(p.steps);
    Payload(if p.schemaVersion != "" then p.schemaVersion else SCHEMA_VERSION,
            if p.correlationId != "" then p.correlationId else freshId,
            steps, Sum(PromptOf, steps), Sum(CompletionOf, steps), Sum(TotalOf, steps), CostSum(steps),
            Sum(LatencyOf, steps), LatestModel(steps, p.model), AnyUsage(steps), LatestError(steps),
            p.others)
  }

  /** `validate_telemetry_payload`; `freshId` is the correlation id drawn when none is set. */
  method ValidateTelemetryPayload(p: Payload, freshId: string) returns (r: Payload)
    ensures r == Validated(p, freshId)
  {
    var steps := [];
    for i := 0 to |p.steps|
      invariant steps == Clean(p.steps[..i])
    {
      assert p.steps[..i + 1][..i] == p.steps[..i];
      if p.steps[i].Step? { steps := steps + [CleanStep(p.steps[i])]; }
    }
    assert p.steps[..|p.steps|] == p.steps;
    r := Payload(if p.schemaVersion != "" then p.schemaVersion else SCHEMA_VERSION,
                 if p.correlationId != "" then p.correlationId else freshId,
                 steps, Sum(PromptOf, steps), Sum(CompletionOf, steps), Sum(TotalOf, steps), CostSum(steps),
                 Sum(LatencyOf, steps), LatestModel(steps, p.model), AnyUsage(steps), LatestError(steps),
                 p.others);
  }

  /** Every entry is a record with all its counts. */
  predicate IsClean(steps: seq<Step>) {
    forall i :: 0 <= i < |steps| ==> steps[i].Step? && CleanStep(steps[i]) == steps[i]
  }

  lemma {:induction false} CleanIsClean(steps: seq<Step>)
    ensures IsClean(Clean(steps))
  {
    if steps != [] { CleanIsClean(steps[..|steps| - 1]); }
  }

  lemma {:induction false} CleanKept(steps: seq<Step>)
    requires IsClean(steps)
    ensures Clean(steps) == steps
  {
    if steps != [] {
      CleanKept(steps[..|steps| - 1]);
      assert steps == steps[..|steps| - 1] + [steps[|steps| - 1]];
    }
  }

  lemma {:induction false} ModelFound(steps: seq<Step>, fallback: string)
    ensures LatestModel(steps, LatestModel(steps, fallback)) == LatestModel(steps, fallback)
  {
    if steps != [] && !(steps[|steps| - 1].Step? && steps[|steps| - 1].model != "") {
      ModelFound(steps[..|steps| - 1], fallback);
    }
  }

  /** A validated payload adds up, and validating it again, whatever id would be drawn, changes nothing. */
  lemma ValidatedTwice(p: Payload, freshId: string, otherId: string)
    requires freshId != ""
    ensures Summed(Validated(p, freshId))
    ensures Validated(Validated(p, freshId), otherId) == Validated(p, freshId)
  {
    CleanIsClean(p.steps);
    CleanKept(Clean(p.steps));
    ModelFound(Clean(p.steps), p.model);
  }

  /** The error reported is that of the latest step with one, the model that of the latest step that names one. */
  lemma {:induction false} LatestIsLatest(steps: seq<Step>, fallback: string, i: nat)
    requires i < |steps|
    ensures HasError(steps[i]) && (forall j :: i < j < |steps| ==> !HasError(steps[j]))
      ==> LatestError(steps) == steps[i].fault
    ensures (forall j :: 0 <= j < |steps| ==> !HasError(steps[j])) ==> LatestError(steps) == NO_FAULT
    ensures steps[i].Step? && steps[i].model != ""
      && (forall j :: i < j < |steps| ==> !(steps[j].Step? && steps[j].model != ""))
      ==> LatestModel(steps, fallback) == steps[i].model
  {
    var n := |steps| - 1;
    if i < n {
      LatestIsLatest(steps[..n], fallback, i);
    } else if n > 0 {
      LatestIsLatest(steps[..n], fallback, 0);
    }
  }

  /** `_record_telemetry`: one step more, then validated. */
  function Record(p: Payload, step: Step): Payload
    requires step.Step?
  {
    Validated(p.(steps := p.steps + [step]), "")
  }

  /** Recording appends exactly one step to a clean list and keeps the totals equal to the sums. */
  lemma RecordAppends(p: Payload, step: Step)
    requires IsClean(p.steps) && step.Step?
    ensures Record(p, step).steps == p.steps + [CleanStep(step)]
    ensures IsClean(Record(p, step).steps) && Summed(Record(p, step))
    ensures Record(p, step).correlationId == p.correlationId
  {
    CleanKept(p.steps);
    assert (p.steps + [step])[..|p.steps|] == p.steps;
  }

  // ---------------------------------------------------------------- aggregation

  datatype Category =
    | NoFailure | Connection | Timeout | ProviderStatus | ValidationFailure | ExecutionFailure | Unknown

  const CONNECTION_MARKERS := ["apiconnectionerror", "connecterror", "readerror", "network", "proxy"]
  const TIMEOUT_MARKERS := ["apitimeouterror", "timeoutexception", "timeout"]
  const PROVIDER_MARKERS := ["apistatuserror", "rate_limit", "server_error", "status"]
  const VALIDATION_MARKERS := ["validation", "unsafe", "blocked"]
  const EXECUTION_MARKERS := ["sqlite", "sql execution", "database"]

  predicate HasMarker(text: string, markers: seq<string>) {
    exists i :: 0 <= i < |markers| && Contains(text, markers[i])
  }

  function TextOr(s: Option<string>, other: string): string {
    if Present(s) then s.value else other
  }

  function CategorizeFailure(errorType: Option<string>, errorMessage: Option<string>): Category {
    var text := Lower(TextOr(errorType, "") + " " + TextOr(errorMessage, ""));
    if Strip(text) == "" then NoFailure
    else if HasMarker(text, CONNECTION_MARKERS) then Connection
    else if HasMarker(text, TIMEOUT_MARKERS) then Timeout
    else if HasMarker(text, PROVIDER_MARKERS) then ProviderStatus
    else if HasMarker(text, VALIDATION_MARKERS) then ValidationFailure
    else if HasMarker(text, EXECUTION_MARKERS) then ExecutionFailure
    else Unknown
  }

  datatype Event = Event(
    phase: Option<string>, step: Option<string>, status: string, latency: Option<int>, total: Option<int>,
    cost: Option<real>, errorType: Option<string>, errorMessage: Option<string>, message: Option<string>)

  function PhaseOf(e: Event): string {
    TextOr(e.phase, TextOr(e.step, "unknown"))
  }

  predicate Failed(e: Event) {
    Present(e.errorType) || Lower(e.status) == "failed" || Lower(e.status) == "error"
  }

  function CategoryOf(e: Event): Category {
    CategorizeFailure(e.errorType, if Present(e.errorMessage) then e.errorMessage else e.message)
  }

  datatype Totals = Totals(count: nat, latency: int, tokens: int, cost: real, failures: nat)

  const ZERO := Totals(0, 0, 0, 0.0, 0)

  function Plus(a: Totals, b: Totals): Totals {
    Totals(a.count + b.count, a.latency + b.latency, a.tokens + b.tokens, a.cost + b.cost, a.failures + b.failures)
  }

  function Of(e: Event): Totals {
    Totals(1, IntOr0(e.latency), IntOr0(e.total), RealOr0(e.cost), if Failed(e) then 1 else 0)
  }

  function TotalsOf(events: seq<Event>): Totals {
    if events == [] then ZERO else Plus(TotalsOf(events[..|events| - 1]), Of(events[|events| - 1]))
  }

  function Failures(events: seq<Event>): seq<Event> {
    if events == [] then []
    else
      Failures(events[..|events| - 1])
      + (if Failed(events[|events| - 1]) then [events[|events| - 1]] else [])
  }

  function InPhase(events: seq<Event>, phase: string): seq<Event> {
    if events == [] then []
    else
      InPhase(events[..|events| - 1], phase)
      + (if PhaseOf(events[|events| - 1]) == phase then [events[|events| - 1]] else [])
  }

  /** The phases in the order they first appear. */
  function Phases(events: seq<Event>): seq<string> {
    if events == [] then []
    else
      var before := Phases(events[..|events| - 1]);
      var phase := PhaseOf(events[|events| - 1]);
      if phase in before then before else before + [phase]
  }

  datatype PhaseRow = PhaseRow(phase: string, totals: Totals)

  /** One row a phase: the totals of exactly its events. */
  function Rows(events: seq<Event>): (rows: seq<PhaseRow>)
    ensures |rows| == |Phases(events)|
  {
    seq(|Phases(events)|, i requires 0 <= i < |Phases(events)| =>
      PhaseRow(Phases(events)[i], TotalsOf(InPhase(events, Phases(events)[i]))))
  }

  function CountOf(counts: map<Category, nat>, c: Category): nat {
    if c in counts then counts[c] else 0
  }

  /** How many failures fall into one category. */
  function FailuresOf(events: seq<Event>, c: Category): nat {
    if events == [] then 0
    else
      FailuresOf(events[..|events| - 1], c)
      + (if Failed(events[|events| - 1]) && CategoryOf(events[|events| - 1]) == c then 1 else 0)
  }

  function RowSum(rows: seq<PhaseRow>): Totals {
    if rows == [] then ZERO else Plus(RowSum(rows[..|rows| - 1]), rows[|rows| - 1].totals)
  }

  function CategorySum(counts: map<Category, nat>): nat {
    CountOf(counts, NoFailure) + CountOf(counts, Connection) + CountOf(counts, Timeout)
    + CountOf(counts, ProviderStatus) + CountOf(counts, ValidationFailure) + CountOf(counts, ExecutionFailure)
    + CountOf(counts, Unknown)
  }

  /** The dictionary lookup by phase, or -1. */
  function RowIndex(rows: seq<PhaseRow>, phase: string): (i: int)
    ensures i == -1 || (0 <= i < |rows| && rows[i].phase == phase)
    ensures i == -1 <==> forall k :: 0 <= k < |rows| ==> rows[k].phase != phase
  {
    if rows == [] then -1
    else if rows[|rows| - 1].phase == phase then |rows| - 1
    else RowIndex(rows[..|rows| - 1], phase)
  }

  lemma {:induction false} FailuresAre(events: seq<Event>)
    ensures forall e :: e in Failures(events) <==> e in events && Failed(e)
    ensures |Failures(events)| == TotalsOf(events).failures && |events| == TotalsOf(events).count
  {
    if events != [] {
      FailuresAre(events[..|events| - 1]);
      assert events == events[..|events| - 1] + [events[|events| - 1]];
    }
  }

  lemma {:induction false} PhasesAre(events: seq<Event>)
    ensures forall i, j :: 0 <= i < j < |Phases(events)| ==> Phases(events)[i] != Phases(events)[j]
    ensures forall p :: p in Phases(events) <==> InPhase(events, p) != []
  {
    if events != [] { PhasesAre(events[..|events| - 1]); }
  }

  lemma {:induction false} TotalsSnoc(events: seq<Event>, e: Event)
    ensures TotalsOf(events + [e]) == Plus(TotalsOf(events), Of(e))
  {
    assert (events + [e])[..|events|] == events;
  }

  lemma {:induction false} PhasesSnoc(events: seq<Event>, e: Event)
    ensures Phases(events + [e])
         == if PhaseOf(e) in Phases(events) then Phases(events) else Phases(events) + [PhaseOf(e)]
  {
    assert (events + [e])[..|events|] == events;
  }

  /** One more event changes the totals of its phase and of no other. */
  lemma {:induction false} PhaseTotalsSnoc(events: seq<Event>, e: Event, p: string)
    ensures TotalsOf(InPhase(events + [e], p))
         == if PhaseOf(e) == p then Plus(TotalsOf(InPhase(events, p)), Of(e)) else TotalsOf(InPhase(events, p))
  {
    hide PhaseOf, Of, Plus;
    assert (events + [e])[..|events|] == events;
    TotalsSnoc(InPhase(events, p), e);
    assert InPhase(events, p) + [] == InPhase(events, p);
    hide TotalsOf;
  }

  lemma {:induction false} NewPhase(events: seq<Event>, e: Event)
    requires PhaseOf(e) !in Phases(events)
    ensures Plus(TotalsOf(InPhase(events, PhaseOf(e))), Of(e)) == Of(e)
  {
    hide PhaseOf, InPhase, Phases, Of;
    PhasesAre(events);
    assert InPhase(events, PhaseOf(e)) == [];
  }

  /** Counting one more event changes the row of its phase and no other. */
  lemma RowsSnoc(events: seq<Event>, e: Event)
    ensures var at := RowIndex(Rows(events), PhaseOf(e));
      Rows(events + [e]) == if at == -1 then Rows(events) + [PhaseRow(PhaseOf(e), Of(e))]
                            else Rows(events)[at := PhaseRow(PhaseOf(e), Plus(Rows(events)[at].totals, Of(e)))]
  {
    PhasesAre(events);
    PhasesSnoc(events, e);
    hide InPhase, TotalsOf, PhaseOf, Of, Phases, Plus, RowIndex;
    var rows, phases, phase := Rows(events), Phases(events), PhaseOf(e);
    assert forall k :: 0 <= k < |rows| ==> rows[k].phase == phases[k];
    forall k | 0 <= k < |phases|
      ensures Rows(events + [e])[k]
           == if phases[k] == phase then PhaseRow(phase, Plus(rows[k].totals, Of(e))) else rows[k]
    {
      PhaseTotalsSnoc(events, e, phases[k]);
    }
    if phase !in phases {
      PhaseTotalsSnoc(events, e, phase);
      NewPhase(events, e);
    }
  }

  lemma {:induction false} RowSumUpdated(rows: seq<PhaseRow>, at: nat, more: Totals)
    requires at < |rows|
    ensures RowSum(rows[at := PhaseRow(rows[at].phase, Plus(rows[at].totals, more))]) == Plus(RowSum(rows), more)
  {
    var n := |rows| - 1;
    var updated := rows[at := PhaseRow(rows[at].phase, Plus(rows[at].totals, more))];
    if at < n {
      RowSumUpdated(rows[..n], at, more);
      assert updated[..n] == rows[..n][at := updated[at]];
    } else {
      assert updated[..n] == rows[..n];
    }
  }

  /** Splitting by phase loses nothing: the rows add up to the totals over all events. */
  lemma {:induction false} RowsAddUp(events: seq<Event>)
    ensures RowSum(Rows(events)) == TotalsOf(events)
  {
    if events != [] {
      var before, e := events[..|events| - 1], events[|events| - 1];
      RowsAddUp(before);
      RowsSnoc(before, e);
      assert events == before + [e];
      var at := RowIndex(Rows(before), PhaseOf(e));
      if at == -1 {
        assert (Rows(before) + [PhaseRow(PhaseOf(e), Of(e))])[..|Rows(before)|] == Rows(before);
      } else {
        RowSumUpdated(Rows(before), at, Of(e));
      }
      hide Rows, Of, PhaseOf;
    }
  }

  lemma {:induction false} CategoriesAddUp(events: seq<Event>)
    ensures FailuresOf(events, NoFailure) + FailuresOf(events, Connection) + FailuresOf(events, Timeout)
          + FailuresOf(events, ProviderStatus) + FailuresOf(events, ValidationFailure)
          + FailuresOf(events, ExecutionFailure) + FailuresOf(events, Unknown) == TotalsOf(events).failures
  {
    if events != [] {
      hide CategoryOf, Failed;
      CategoriesAddUp(events[..|events| - 1]);
    }
  }

  /** `totals.cost` is the exact total, `cost` the rounded one that is reported. */
  datatype Aggregate = Aggregate(
    totals: Totals, failureRate: real, cost: real, byPhase: seq<PhaseRow>, byCategory: map<Category, nat>)

  function Percentage(part: nat, whole: nat): real
    requires whole > 0
  {
    part as real / whole as real * 100.0
  }

  function FailureRate(t: Totals): real {
    if t.count > 0 then Round2(Percentage(t.failures, t.count)) else 0.0
  }

  lemma PercentageWithin(part: nat, whole: nat)
    requires whole > 0 && part <= whole
    ensures 0.0 <= Percentage(part, whole) <= 100.0
    ensures part == 0 ==> Percentage(part, whole) == 0.0
    ensures part == whole ==> Percentage(part, whole) == 100.0
  {
    var p, w := part as real, whole as real;
    assert 0.0 <= p / w <= 1.0;
  }

  lemma {:induction false} FailuresAtMost(events: seq<Event>)
    ensures TotalsOf(events).count == |events| && TotalsOf(events).failures <= |events|
  {
    hide Failed, IntOr0, RealOr0;
    if events != [] { FailuresAtMost(events[..|events| - 1]); }
  }

  lemma {:induction false} FailuresAreEvents(events: seq<Event>)
    ensures TotalsOf(events).failures == 0 <==> forall i :: 0 <= i < |events| ==> !Failed(events[i])
    ensures TotalsOf(events).failures == |events| <==> forall i :: 0 <= i < |events| ==> Failed(events[i])
  {
    hide Failed, IntOr0, RealOr0;
    if events != [] {
      var n := |events| - 1;
      var before := events[..n];
      FailuresAreEvents(before);
      FailuresAtMost(before);
      assert TotalsOf(events).failures == TotalsOf(before).failures + (if Failed(events[n]) then 1 else 0);
      hide TotalsOf;
      assert forall i :: 0 <= i < n ==> before[i] == events[i];
    }
  }

  /** The failure rate lies in [0, 100], within rounding of the share of failed events, and is 0 when none failed and
      100 when all did. The reported cost is within rounding of the sum of the phases' costs. */
  lemma {:induction false} RatesWithin(events: seq<Event>)
    ensures var t := TotalsOf(events);
      && 0.0 <= FailureRate(t) <= 100.0
      && (events != [] ==> -0.005 <= FailureRate(t) - Percentage(t.failures, |events|) <= 0.005)
      && ((forall i :: 0 <= i < |events| ==> !Failed(events[i])) ==> FailureRate(t) == 0.0)
      && (events != [] && (forall i :: 0 <= i < |events| ==> Failed(events[i])) ==> FailureRate(t) == 100.0)
      && -0.0000005 <= Round6(t.cost) - RowSum(Rows(events)).cost <= 0.0000005
  {
    var t := TotalsOf(events);
    FailuresAtMost(events);
    FailuresAreEvents(events);
    RowsAddUp(events);
    Round6Near(t.cost);
    Round2Exact(0);
    Round2Exact(10000);
    if events != [] {
      PercentageWithin(t.failures, t.count);
      var share := Percentage(t.failures, t.count);
      Round2Monotone(0.0, share);
      Round2Monotone(share, 100.0);
      Round2Near(share);
    }
    hide TotalsOf, RowSum, Rows, Failed, Percentage, Round2, Round6;
  }

  /** Every category's count is the number of its failures. */
  ghost predicate Tallied(counts: map<Category, nat>, events: seq<Event>) {
    forall c: Category :: CountOf(counts, c) == FailuresOf(events, c)
  }

  lemma TallySnoc(counts: map<Category, nat>, events: seq<Event>, e: Event)
    requires Tallied(counts, events)
    ensures Tallied(if Failed(e) then counts[CategoryOf(e) := CountOf(counts, CategoryOf(e)) + 1] else counts,
                    events + [e])
  {
    hide Failed, CategoryOf;
    assert (events + [e])[..|events|] == events;
    forall c: Category
      ensures FailuresOf(events + [e], c) == FailuresOf(events, c) + (if Failed(e) && CategoryOf(e) == c then 1 else 0)
    {
    }
  }

  lemma {:induction false} TallyAddsUp(counts: map<Category, nat>, events: seq<Event>)
    requires Tallied(counts, events)
    ensures CategorySum(counts) == TotalsOf(events).failures
  {
    hide TotalsOf, FailuresOf;
    CategoriesAddUp(events);
  }

  lemma DistinctRows(events: seq<Event>)
    ensures forall i, j :: 0 <= i < j < |Rows(events)| ==> Rows(events)[i].phase != Rows(events)[j].phase
  {
    PhasesAre(events);
    hide InPhase, TotalsOf, Phases;
  }

  /** `telemetry_aggregate`: one row a phase in order of appearance, each holding the
      totals of exactly its events; rows and categories add up to the totals. */
  method TelemetryAggregate(events: seq<Event>) returns (r: Aggregate)
    ensures r.totals == TotalsOf(events) && r.totals.count == |events|
    ensures r.failureRate == FailureRate(r.totals) && r.cost == Round6(r.totals.cost)
    ensures r.byPhase == Rows(events) && RowSum(r.byPhase) == r.totals
    ensures forall i, j :: 0 <= i < j < |r.byPhase| ==> r.byPhase[i].phase != r.byPhase[j].phase
    ensures Tallied(r.byCategory, events) && CategorySum(r.byCategory) == r.totals.failures
  {
    var failures := Failures(events);
    FailuresAre(events);
    assert forall i :: 0 <= i < |events| ==> (events[i] in failures <==> Failed(events[i]));
    hide Failed, PhaseOf, CategoryOf, TotalsOf, RowSum, Failures, Tallied, CategorySum, Rows, RowIndex;
    var byPhase: seq<PhaseRow> := [];
    var byCategory: map<Category, nat> := map[];
    NothingCounted();
    assert events[..0] == [];
    for i := 0 to |events|
      invariant byPhase == Rows(events[..i]) && Tallied(byCategory, events[..i])
    {
      var e := events[i];
      assert events[..i + 1] == events[..i] + [e];
      RowsSnoc(events[..i], e);
      TallySnoc(byCategory, events[..i], e);
      byPhase := CountEvent(byPhase, e, e in failures);
      if e in failures {
        byCategory := byCategory[CategoryOf(e) := CountOf(byCategory, CategoryOf(e)) + 1];
      }
    }
    assert events[..|events|] == events;
    RowsAddUp(events);
    TallyAddsUp(byCategory, events);
    DistinctRows(events);
    var totals := TotalsOf(events);
    r := Aggregate(totals, FailureRate(totals), Round6(totals.cost), byPhase, byCategory);
  }

  lemma NothingCounted()
    ensures Rows([]) == [] && Tallied(map[], [])
  {
  }

  /** One pass of the loop over the phase rows: `setdefault`, then the five additions. */
  method CountEvent(rows: seq<PhaseRow>, e: Event, failed: bool) returns (r: seq<PhaseRow>)
    requires failed <==> Failed(e)
    ensures var at := RowIndex(rows, PhaseOf(e));
      r == if at == -1 then rows + [PhaseRow(PhaseOf(e), Of(e))]
           else rows[at := PhaseRow(PhaseOf(e), Plus(rows[at].totals, Of(e)))]
  {
    r := rows;
    var at := RowIndex(r, PhaseOf(e));
    if at == -1 {
      at := |r|;
      r := r + [PhaseRow(PhaseOf(e), ZERO)];
    }
    var t := r[at].totals;
    t := t.(count := t.count + 1);
    t := t.(latency := t.latency + IntOr0(e.latency));
    t := t.(tokens := t.tokens + IntOr0(e.total));
    t := t.(cost := t.cost + RealOr0(e.cost));
    if failed { t := t.(failures := t.failures + 1); }
    r := r[at := PhaseRow(PhaseOf(e), t)];
  }
}
