/** The autonomous investigation loop and its evidence ledger (investigation.py). */
module Investigation {
  import opened Rounding
  import opened Wrappers
  import opened Text
  import opened Guardrails
  import Sorting
  import Telemetry
  import Workflow

  datatype Severity = Critical | Warning | Info | Other(name: string)

  /** A finding without a severity counts as info. */
  datatype Finding = Finding(title: string, kind: string, severity: Option<Severity>)

  datatype Insight = Insight(severity: Severity, findings: seq<Finding>)

  /** The result of `run_query`, or the exception it raised. */
  datatype Outcome = Rows(columns: seq<string>, count: nat) | Raised(message: string)

  /** What the model and the database answer for one finding. */
  datatype Answer = Answer(text: string, usage: Telemetry.Step, outcome: Outcome)

  datatype QueryStatus = Succeeded | Failed | Blocked

  datatype Query = Query(
    title: string, kind: string, severity: Severity, sql: string, status: QueryStatus, columns: seq<string>, count: nat)

  datatype Evidence = Evidence(title: string, count: nat, columns: seq<string>)

  /** SQL handed to the database, with what came back. */
  datatype Sent = Sent(sql: string, outcome: Outcome)

  datatype Stage = Planning | QueryGeneration | GuardrailCheck | EvidenceCollection | Summary

  datatype Status = Idle | Skipped | Running | Completed | Unsuccessful

  datatype Meter = Meter(
    steps: seq<Telemetry.Step>, prompt: int, completion: int, total: int, cost: real, latency: int)

  datatype State = State(
    status: Status, severity: Severity, queries: seq<Query>, lifecycle: seq<Stage>, evidence: seq<Evidence>,
    sent: seq<Sent>, score: real, meter: Meter)

  const NO_METER := Meter([], 0, 0, 0, 0.0, 0)

  function EmptyState(): State { State(Idle, Info, [], [], [], [], 0.0, NO_METER) }

  predicate ShouldInvestigate(insight: Option<Insight>) {
    insight.Some? && (insight.value.severity == Warning || insight.value.severity == Critical)
    && insight.value.findings != []
  }

  function SeverityOf(f: Finding): Severity {
    if f.severity.Some? then f.severity.value else Info
  }

  function Priority(f: Finding): real {
    match SeverityOf(f)
    case Critical => 0.0
    case Warning => 1.0
    case Info => 2.0
    case Other(_) => 3.0
  }

  function Chosen(findings: seq<Finding>, maxQueries: int): seq<Finding> {
    Sorting.Take(Sorting.SortBy(Priority, findings), maxQueries)
  }

  /** `_record_telemetry`. */
  function Recorded(meter: Meter, step: Telemetry.Step): Meter {
    var steps := meter.steps + [step];
    Meter(steps, Telemetry.Sum(Telemetry.PromptOf, steps), Telemetry.Sum(Telemetry.CompletionOf, steps),
          Telemetry.Sum(Telemetry.TotalOf, steps), Telemetry.CostSum(steps),
          Telemetry.Sum(Telemetry.LatencyOf, steps))
  }

  // ---------------------------------------------------------------- the score

  function SeverityWeight(severity: Severity): real {
    match severity
    case Critical => 0.3
    case Warning => 0.2
    case _ => 0.1
  }

  function Successes(queries: seq<Query>): nat {
    if queries == [] then 0
    else Successes(queries[..|queries| - 1]) + (if queries[|queries| - 1].status == Succeeded then 1 else 0)
  }

  function Ratio(part: nat, whole: nat): real
    requires whole > 0
  {
    part as real / whole as real
  }

  function RawScore(queries: seq<Query>, evidence: nat, severity: Severity): real
    requires queries != []
  {
    Ratio(Successes(queries), |queries|) * 0.55 + (if evidence <= 4 then evidence else 4) as real * 0.05
    + SeverityWeight(severity)
  }

  /** `score_investigation`. */
  function Score(queries: seq<Query>, evidence: nat, severity: Severity): real {
    if queries == [] then 0.0
    else
      var sum := RawScore(queries, evidence, severity);
      Round2(if sum <= 1.0 then sum else 1.0)
  }

  lemma RatioNonnegative(part: nat, whole: nat)
    requires whole > 0
    ensures Ratio(part, whole) >= 0.0
  {
  }

  /** The score always lies in [0, 1]. */
  lemma ScoreWithin(queries: seq<Query>, evidence: nat, severity: Severity)
    ensures 0.0 <= Score(queries, evidence, severity) <= 1.0
  {
    if queries != [] {
      RatioNonnegative(Successes(queries), |queries|);
      hide Ratio, Round2, Successes;
      var sum := RawScore(queries, evidence, severity);
      var capped := if sum <= 1.0 then sum else 1.0;
      Round2Monotone(0.0, capped);
      Round2Monotone(capped, 1.0);
      Round2Exact(0);
      Round2Exact(100);
    }
  }

  // ---------------------------------------------------------------- the ledger

  /** The record a finding leaves: generation failed, SQL was blocked, or the query ran. */
  function QueryFor(f: Finding, a: Answer): Query {
    var sql := Strip(a.text);
    var pending := Query(f.title, f.kind, SeverityOf(f), sql, Failed, [], 0);
    if Workflow.NoSql(sql) then pending
    else if !IsSafeSql(sql) then pending.(status := Blocked)
    else
      match a.outcome
      case Rows(columns, count) => pending.(status := Succeeded, columns := columns, count := count)
      case Raised(_) => pending
  }

  function StageFor(a: Answer): Stage {
    var sql := Strip(a.text);
    if Workflow.NoSql(sql) then QueryGeneration else if !IsSafeSql(sql) then GuardrailCheck else EvidenceCollection
  }

  /** What a finding sends to the database: its SQL, if there is any and the guard lets it pass. */
  function SentFor(a: Answer): seq<Sent> {
    var sql := Strip(a.text);
    if Workflow.NoSql(sql) || !IsSafeSql(sql) then [] else [Sent(sql, a.outcome)]
  }

  function SentUpTo(answers: nat -> Answer, n: nat): seq<Sent> {
    if n == 0 then [] else SentUpTo(answers, n - 1) + SentFor(answers(n - 1))
  }

  /** How many of the queries sent raised. */
  function RaisedIn(sent: seq<Sent>): nat {
    if sent == [] then 0
    else RaisedIn(sent[..|sent| - 1]) + (if sent[|sent| - 1].outcome.Raised? then 1 else 0)
  }

  function QueriesFor(chosen: seq<Finding>, answers: nat -> Answer): (queries: seq<Query>)
    ensures |queries| == |chosen|
  {
    seq(|chosen|, i requires 0 <= i < |chosen| => QueryFor(chosen[i], answers(i)))
  }

  /** The evidence the successful queries are, in order. */
  function EvidenceFor(queries: seq<Query>): seq<Evidence> {
    if queries == [] then []
    else
      var last := queries[|queries| - 1];
      EvidenceFor(queries[..|queries| - 1])
      + (if last.status == Succeeded then [Evidence(last.title, last.count, last.columns)] else [])
  }

  function Steps(answers: nat -> Answer, n: nat): (steps: seq<Telemetry.Step>)
    ensures |steps| == n
  {
    seq(n, i requires 0 <= i < n => answers(i).usage)
  }

  /** The totals are those of the steps. */
  ghost predicate Balanced(m: Meter, elapsed: int) {
    && m.prompt == Telemetry.Sum(Telemetry.PromptOf, m.steps)
    && m.completion == Telemetry.Sum(Telemetry.CompletionOf, m.steps)
    && m.total == Telemetry.Sum(Telemetry.TotalOf, m.steps) && m.cost == Telemetry.CostSum(m.steps)
    && m.latency == Telemetry.Sum(Telemetry.LatencyOf, m.steps) + elapsed
  }

  /** One finding's pass of the loop. */
  method InvestigateFinding(s: State, f: Finding, a: Answer) returns (t: State)
    ensures t == s.(queries := s.queries + [QueryFor(f, a)], lifecycle := s.lifecycle + [StageFor(a)],
                    evidence := s.evidence + EvidenceFor([QueryFor(f, a)]), sent := s.sent + SentFor(a),
                    meter := Recorded(s.meter, a.usage))
  {
    hide Recorded, IsSafeSql, Strip, StartsWith;
    t := s.(meter := Recorded(s.meter, a.usage));
    var sql := Strip(a.text);
    var record := Query(f.title, f.kind, SeverityOf(f), sql, Failed, [], 0);
    if Workflow.NoSql(sql) {
      t := t.(queries := t.queries + [record], lifecycle := t.lifecycle + [QueryGeneration]);
    } else if !IsSafeSql(sql) {
      record := record.(status := Blocked);
      t := t.(queries := t.queries + [record], lifecycle := t.lifecycle + [GuardrailCheck]);
    } else {
      t := t.(sent := t.sent + [Sent(sql, a.outcome)]);
      match a.outcome {
        case Rows(columns, count) =>
          record := record.(status := Succeeded, columns := columns, count := count);
          t := t.(evidence := t.evidence + [Evidence(record.title, count, columns)]);
        case Raised(_) =>
      }
      t := t.(lifecycle := t.lifecycle + [EvidenceCollection], queries := t.queries + [record]);
    }
    assert [QueryFor(f, a)][..0] == [];
  }

  lemma {:induction false} EvidenceSnoc(queries: seq<Query>, q: Query)
    ensures EvidenceFor(queries + [q]) == EvidenceFor(queries) + EvidenceFor([q])
  {
    assert (queries + [q])[..|queries|] == queries;
    assert [q][..0] == [];
  }

  /** The books after the first `n` findings: one query record, telemetry step and lifecycle entry each, one piece of
      evidence for each query that succeeded, and totals that are the sums of the steps. */
  ghost predicate Ledger(s: State, findings: seq<Finding>, answers: nat -> Answer, n: nat)
    requires n <= |findings|
  {
    && s.queries == QueriesFor(findings, answers)[..n] && s.meter.steps == Steps(answers, n)
    && |s.lifecycle| == n + 1 && s.evidence == EvidenceFor(s.queries) && Balanced(s.meter, 0)
    && s.sent == SentUpTo(answers, n)
  }

  lemma LedgerStep(s: State, t: State, findings: seq<Finding>, answers: nat -> Answer, n: nat)
    requires n < |findings| && Ledger(s, findings, answers, n)
    requires t.queries == s.queries + [QueryFor(findings[n], answers(n))] && |t.lifecycle| == |s.lifecycle| + 1
    requires t.evidence == s.evidence + EvidenceFor([QueryFor(findings[n], answers(n))])
    requires t.meter == Recorded(s.meter, answers(n).usage) && t.sent == s.sent + SentFor(answers(n))
    ensures Ledger(t, findings, answers, n + 1)
  {
    hide QueryFor, EvidenceFor, Recorded, Balanced, SentFor;
    EvidenceSnoc(s.queries, QueryFor(findings[n], answers(n)));
    RecordBalances(s.meter, answers(n).usage);
  }

  method InvestigateAll(start: State, findings: seq<Finding>, answers: nat -> Answer) returns (s: State)
    requires start.queries == [] && |start.lifecycle| == 1 && start.evidence == [] && start.sent == []
    requires start.meter == NO_METER
    ensures Ledger(s, findings, answers, |findings|) && s.severity == start.severity
  {
    hide QueryFor, StageFor, EvidenceFor, SentFor, Recorded, Balanced;
    NothingYet();
    s := start;
    for i := 0 to |findings|
      invariant Ledger(s, findings, answers, i) && s.severity == start.severity
    {
      hide Ledger;
      ghost var before := s;
      s := InvestigateFinding(s, findings[i], answers(i));
      LedgerStep(before, s, findings, answers, i);
    }
  }

  /** `run_investigation` without its callbacks; `elapsed` is its wall-clock time. An investigation that is not skipped
      leaves one query record, one telemetry step and one lifecycle entry for each finding chosen, two lifecycle entries
      besides, and one piece of evidence for each query that succeeded. */
  method RunInvestigation(insight: Option<Insight>, maxQueries: int, answers: nat -> Answer, elapsed: nat)
    returns (s: State)
    ensures !ShouldInvestigate(insight) ==> s == EmptyState().(status := Skipped)
    ensures ShouldInvestigate(insight) ==>
      var chosen := Chosen(insight.value.findings, maxQueries);
      && s.queries == QueriesFor(chosen, answers) && s.meter.steps == Steps(answers, |chosen|)
      && |s.lifecycle| == |s.queries| + 2 && s.evidence == EvidenceFor(s.queries)
      && (s.status == Completed <==> s.evidence != []) && (s.status == Unsuccessful <==> s.evidence == [])
      && Balanced(s.meter, elapsed) && s.severity == insight.value.severity
      && s.score == Score(s.queries, |s.evidence|, s.severity) && 0.0 <= s.score <= 1.0
      && s.sent == SentUpTo(answers, |chosen|)
    ensures AllSafe(s.sent)
    ensures |s.sent| == |s.evidence| + RaisedIn(s.sent)
  {
    if !ShouldInvestigate(insight) { return EmptyState().(status := Skipped); }
    hide Chosen, QueryFor, EvidenceFor, SentUpTo, AllSafe, RaisedIn, Score, Balanced, Successes;
    s := EmptyState().(status := Running, severity := insight.value.severity, lifecycle := [Planning]);
    var findings := Chosen(insight.value.findings, maxQueries);
    s := InvestigateAll(s, findings, answers);
    assert QueriesFor(findings, answers)[..|findings|] == QueriesFor(findings, answers);
    OnlySafeSqlRuns(findings, answers, |findings|);
    var successful := Successes(s.queries);
    EvidenceIffSuccess(s.queries);
    LatencyAdded(s.meter, elapsed);
    s := s.(meter := s.meter.(latency := s.meter.latency + elapsed));
    s := s.(status := if successful > 0 then Completed else Unsuccessful);
    s := s.(score := Score(s.queries, |s.evidence|, s.severity));
    ScoreWithin(s.queries, |s.evidence|, s.severity);
    s := s.(lifecycle := s.lifecycle + [Summary]);
  }

  lemma RecordBalances(m: Meter, step: Telemetry.Step)
    ensures Balanced(Recorded(m, step), 0) && Recorded(m, step).steps == m.steps + [step]
  {
    hide Telemetry.Sum, Telemetry.CostSum;
  }

  lemma LatencyAdded(m: Meter, elapsed: nat)
    requires Balanced(m, 0)
    ensures Balanced(m.(latency := m.latency + elapsed), elapsed)
  {
    hide Telemetry.Sum, Telemetry.CostSum;
  }

  lemma NothingYet()
    ensures Balanced(NO_METER, 0) && EvidenceFor([]) == []
  {
  }

  lemma {:induction false} EvidenceIffSuccess(queries: seq<Query>)
    ensures |EvidenceFor(queries)| == Successes(queries)
  {
    if queries != [] { EvidenceIffSuccess(queries[..|queries| - 1]); }
  }

  /** The findings looked into are the most severe ones: the cut keeps a prefix of the stable order by severity. */
  lemma {:induction false} ChosenBySeverity(findings: seq<Finding>, maxQueries: int, k: real)
    ensures var order, chosen := Sorting.SortBy(Priority, findings), Chosen(findings, maxQueries);
      && chosen <= order && multiset(order) == multiset(findings)
      && (forall i, j :: 0 <= i < |chosen| && i < j < |order| ==> Priority(chosen[i]) <= Priority(order[j]))
      && Sorting.WithKey(Priority, k, order) == Sorting.WithKey(Priority, k, findings)
      && (maxQueries >= 0 ==> |chosen| == if maxQueries <= |findings| then maxQueries else |findings|)
  {
    Sorting.SortSorts(Priority, findings);
    Sorting.SortStable(Priority, findings, k);
    hide Sorting.SortBy, Sorting.WithKey;
  }

  /** A text that may be run: there is SQL in it, no report of a failure, and no blocked word outside comments. */
  ghost predicate SafeText(sql: string) {
    && sql != "" && !StartsWith(sql, "ERROR:")
    && forall w :: w in Words(StripComments(Lower(sql))) ==> w !in BLOCKED
  }

  lemma SentIsSafe(f: Finding, a: Answer)
    ensures AllSafe(SentFor(a))
    ensures |SentFor(a)| == (if QueryFor(f, a).status == Succeeded then 1 else 0) + RaisedIn(SentFor(a))
  {
    SafeIffNoBlockedWord(Strip(a.text));
    hide IsSafeSql, Strip, StartsWith, StripComments, Lower;
    assert SentFor(a) != [] ==> SentFor(a)[..0] == [];
  }

  lemma {:induction false} RaisedConcat(a: seq<Sent>, b: seq<Sent>)
    ensures RaisedIn(a + b) == RaisedIn(a) + RaisedIn(b)
  {
    if b == [] {
      assert a + [] == a;
    } else {
      RaisedConcat(a, b[..|b| - 1]);
      assert (a + b)[..|a + b| - 1] == a + b[..|b| - 1];
    }
  }

  ghost predicate AllSafe(sent: seq<Sent>) {
    forall i :: 0 <= i < |sent| ==> SafeText(sent[i].sql)
  }

  lemma AllSafeConcat(a: seq<Sent>, b: seq<Sent>)
    requires AllSafe(a) && AllSafe(b)
    ensures AllSafe(a + b)
  {
    hide SafeText;
  }

  lemma NothingSent()
    ensures AllSafe([]) && RaisedIn([]) == 0 && EvidenceFor([]) == []
  {
  }

  /** Everything an investigation sends to the database is safe, and each query sent either left evidence or raised. */
  lemma {:induction false} OnlySafeSqlRuns(findings: seq<Finding>, answers: nat -> Answer, n: nat)
    requires n <= |findings|
    ensures AllSafe(SentUpTo(answers, n))
    ensures |SentUpTo(answers, n)| == |EvidenceFor(QueriesFor(findings, answers)[..n])| + RaisedIn(SentUpTo(answers, n))
  {
    hide SentFor, AllSafe, QueryFor, EvidenceFor, RaisedIn;
    var queries := QueriesFor(findings, answers);
    if n == 0 {
      NothingSent();
      assert queries[..0] == [];
    } else {
      OnlySafeSqlRuns(findings, answers, n - 1);
      SentIsSafe(findings[n - 1], answers(n - 1));
      RaisedConcat(SentUpTo(answers, n - 1), SentFor(answers(n - 1)));
      AllSafeConcat(SentUpTo(answers, n - 1), SentFor(answers(n - 1)));
      assert queries[..n] == queries[..n - 1] + [queries[n - 1]];
      EvidenceSnoc(queries[..n - 1], queries[n - 1]);
      EvidenceOfOne(queries[n - 1]);
    }
  }

  lemma EvidenceOfOne(q: Query)
    ensures |EvidenceFor([q])| == if q.status == Succeeded then 1 else 0
  {
    assert [q][..0] == [];
  }
}
