/** The attempt and fallback loops around a chat completion (llm.py, generate_sql_with_telemetry). */
module LlmRetry {
  import opened Rounding
  import opened Wrappers
  import opened Text
  import opened Retry
  import Workflow

  /** One request: an answer, an exception the loop handles (with its text and the report made of it), or any other. */
  datatype Reply = Answered(content: string) | Refused(message: string, report: string) | Unhandled

  datatype Result = Answer(model: string, sql: string) | GaveUp(text: string) | Propagated

  /** `_request_error_text`. */
  function ErrorText(report: string): string {
    "ERROR: " + report
  }

  /** The model asked for, then the configured fallback if it is another. */
  function ModelCandidates(model: string, fallback: string): (models: seq<string>)
    ensures 1 <= |models| <= 2
  {
    if fallback != "" && fallback != model then [model, fallback] else [model]
  }

  /** Whether the loop tries the same model again after the `attempt`-th refusal. */
  predicate TriesAgain(policy: RetryPolicy, attempt: nat, message: string) {
    ShouldRetry(policy, attempt - 1, Some(message))
  }

  // ---------------------------------------------------------------- what the attempts look like

  /** The attempts at one model: every one but the last was refused with some text. */
  ghost predicate Attempts(policy: RetryPolicy, replies: seq<Reply>) {
    && |replies| <= policy.MaxAttempts()
    && forall i :: 0 <= i < |replies| - 1 ==> replies[i].Refused? && replies[i].message != ""
  }

  /** A model is given up after a refusal without a text, or after the last attempt. */
  ghost predicate GivenUp(policy: RetryPolicy, replies: seq<Reply>) {
    && replies != [] && replies[|replies| - 1].Refused?
    && (replies[|replies| - 1].message == "" || |replies| == policy.MaxAttempts())
  }

  /** Whole attempts at models in order, one list a model; each model but the last was given up. */
  ghost predicate InOrder(policy: RetryPolicy, blocks: seq<seq<Reply>>) {
    && (forall c :: 0 <= c < |blocks| ==> blocks[c] != [] && Attempts(policy, blocks[c]))
    && forall c :: 0 <= c < |blocks| - 1 ==> GivenUp(policy, blocks[c])
  }

  /** The replies of all attempts, one after the other. */
  function Flat(blocks: seq<seq<Reply>>): seq<Reply> {
    if blocks == [] then [] else Flat(blocks[..|blocks| - 1]) + blocks[|blocks| - 1]
  }

  /** The delays slept between `n + 1` attempts at one model. */
  function Delays(policy: RetryPolicy, n: nat): (delays: seq<real>)
    ensures |delays| == n
  {
    seq(n, k requires 0 <= k < n => RetryDelay(policy, k + 1))
  }

  function AllDelays(policy: RetryPolicy, blocks: seq<seq<Reply>>): seq<real> {
    if blocks == [] then []
    else
      var last := blocks[|blocks| - 1];
      AllDelays(policy, blocks[..|blocks| - 1]) + Delays(policy, if last == [] then 0 else |last| - 1)
  }

  function Total(delays: seq<real>): real {
    if delays == [] then 0.0 else Total(delays[..|delays| - 1]) + delays[|delays| - 1]
  }

  /** How the loops come out: the first answer wins; giving up means every model was given up. */
  ghost predicate Concluded(policy: RetryPolicy, models: seq<string>, blocks: seq<seq<Reply>>, result: Result)
    requires |blocks| <= |models|
  {
    && blocks != [] && blocks[|blocks| - 1] != []
    && var last := blocks[|blocks| - 1][|blocks[|blocks| - 1]| - 1];
       match result
       case Answer(model, sql) => last.Answered? && sql == Unfenced(last.content) && model == models[|blocks| - 1]
       case GaveUp(text) =>
         |blocks| == |models| && GivenUp(policy, blocks[|blocks| - 1]) && text == ErrorText(last.report)
       case Propagated => last == Unhandled
  }

  /** The replies are those to the requests from the `from`-th on. */
  ghost predicate Served(replies: seq<Reply>, answers: nat -> Reply, from: nat) {
    forall i :: 0 <= i < |replies| ==> replies[i] == answers(from + i)
  }

  lemma ServedConcat(a: seq<Reply>, b: seq<Reply>, answers: nat -> Reply)
    requires Served(a, answers, 0) && Served(b, answers, |a|)
    ensures Served(a + b, answers, 0)
  {
    assert forall i :: |a| <= i < |a + b| ==> (a + b)[i] == b[i - |a|];
  }

  lemma AttemptsSnoc(policy: RetryPolicy, replies: seq<Reply>, reply: Reply)
    requires Attempts(policy, replies) && |replies| < policy.MaxAttempts()
    requires replies != [] ==> replies[|replies| - 1].Refused? && replies[|replies| - 1].message != ""
    ensures Attempts(policy, replies + [reply])
  {
  }

  lemma DelaysSnoc(policy: RetryPolicy, n: nat)
    ensures Delays(policy, n + 1) == Delays(policy, n) + [RetryDelay(policy, n + 1)]
  {
    hide RetryDelay;
  }

  lemma {:induction false} InOrderSnoc(policy: RetryPolicy, blocks: seq<seq<Reply>>, block: seq<Reply>)
    requires InOrder(policy, blocks) && block != [] && Attempts(policy, block)
    requires blocks != [] ==> GivenUp(policy, blocks[|blocks| - 1])
    ensures InOrder(policy, blocks + [block])
    ensures Flat(blocks + [block]) == Flat(blocks) + block
    ensures AllDelays(policy, blocks + [block]) == AllDelays(policy, blocks) + Delays(policy, |block| - 1)
  {
    hide Attempts, GivenUp, Delays;
    assert (blocks + [block])[..|blocks|] == blocks;
  }

  lemma {:induction false} Nothing(policy: RetryPolicy)
    ensures InOrder(policy, []) && Flat([]) == [] && AllDelays(policy, []) == []
    ensures forall answers :: Served([], answers, 0)
  {
  }

  /** The attempts at one model; `answers(k)` is the reply to the k-th request of the whole call. */
  method AttemptModel(policy: RetryPolicy, answers: nat -> Reply, from: nat)
    returns (replies: seq<Reply>, sleeps: seq<real>)
    ensures replies != [] && Attempts(policy, replies) && sleeps == Delays(policy, |replies| - 1)
    ensures Served(replies, answers, from)
    ensures replies[|replies| - 1].Refused? ==> GivenUp(policy, replies)
  {
    replies, sleeps := [], [];
    var attempt := 1;
    while attempt <= policy.MaxAttempts()
      invariant 1 <= attempt <= policy.MaxAttempts() && |replies| == attempt - 1
      invariant Attempts(policy, replies) && sleeps == Delays(policy, attempt - 1)
      invariant replies != [] ==> replies[|replies| - 1].Refused? && replies[|replies| - 1].message != ""
      invariant Served(replies, answers, from)
    {
      hide RetryDelay, Delays;
      var reply := answers(from + attempt - 1);
      AttemptsSnoc(policy, replies, reply);
      replies := replies + [reply];
      if !reply.Refused? { return; }
      if !TriesAgain(policy, attempt, reply.message) { return; }
      DelaysSnoc(policy, attempt - 1);
      sleeps := sleeps + [RetryDelay(policy, attempt)];
      attempt := attempt + 1;
    }
  }

  /** `generate_sql_with_telemetry`. For every pattern of failures: models are tried in order, each at most
      `max_attempts` times and given up before the next; the first answer is returned; the sleeps are those between
      the attempts. */
  method GenerateSql(model: string, fallback: string, policy: RetryPolicy, answers: nat -> Reply)
    returns (result: Result, blocks: seq<seq<Reply>>, sleeps: seq<real>)
    ensures |blocks| <= |ModelCandidates(model, fallback)| && InOrder(policy, blocks)
    ensures Concluded(policy, ModelCandidates(model, fallback), blocks, result)
    ensures Served(Flat(blocks), answers, 0)
    ensures sleeps == AllDelays(policy, blocks)
  {
    var models := ModelCandidates(model, fallback);
    blocks, sleeps := [], [];
    var requests := 0;
    var lastReport := "";
    hide Delays, Attempts, Unfenced, InOrder, Flat, AllDelays, ModelCandidates, Served;
    Nothing(policy);
    for c := 0 to |models|
      invariant |blocks| == c && InOrder(policy, blocks) && sleeps == AllDelays(policy, blocks)
      invariant requests == |Flat(blocks)| && Served(Flat(blocks), answers, 0)
      invariant c > 0 ==> GivenUp(policy, blocks[c - 1]) && lastReport == blocks[c - 1][|blocks[c - 1]| - 1].report
    {
      var replies, slept := AttemptModel(policy, answers, requests);
      InOrderSnoc(policy, blocks, replies);
      ServedConcat(Flat(blocks), replies, answers);
      blocks, sleeps := blocks + [replies], sleeps + slept;
      requests := requests + |replies|;
      var last := replies[|replies| - 1];
      match last {
        case Answered(content) => result := Answer(models[c], Unfenced(content)); return;
        case Unhandled => result := Propagated; return;
        case Refused(_, report) => lastReport := report;
      }
    }
    result := GaveUp(ErrorText(lastReport));
  }

  // ---------------------------------------------------------------- bounds

  lemma {:induction false} IdealTotalGrows(policy: RetryPolicy, m: nat, n: nat)
    requires policy.Valid() && m <= n
    ensures 0.0 <= IdealTotal(policy, m) <= IdealTotal(policy, n)
  {
    hide IdealDelay;
    if m < n {
      IdealTotalGrows(policy, m, n - 1);
      IdealDelaysGrow(policy, n);
    } else if n > 0 {
      IdealTotalGrows(policy, n - 1, n - 1);
      IdealDelaysGrow(policy, n);
    }
  }

  /** Between the attempts at one model the delays never shrink and add up to the ideal total, half a millisecond of
      rounding apart from each. */
  lemma {:induction false} DelaysBounded(policy: RetryPolicy, n: nat)
    requires policy.Valid()
    ensures forall k :: 0 <= k < n ==> 0.0 <= Delays(policy, n)[k]
    ensures forall k :: 0 < k < n ==> Delays(policy, n)[k - 1] <= Delays(policy, n)[k]
    ensures Total(Delays(policy, n)) <= IdealTotal(policy, n) + 0.0005 * n as real
  {
    hide IdealDelay, Round3;
    forall k | 0 <= k < n ensures 0.0 <= Delays(policy, n)[k] { DelaysGrow(policy, k + 1); }
    forall k | 0 < k < n ensures Delays(policy, n)[k - 1] <= Delays(policy, n)[k] { DelaysGrow(policy, k); }
    if n > 0 {
      DelaysBounded(policy, n - 1);
      DelaysSnoc(policy, n - 1);
      assert Delays(policy, n)[..n - 1] == Delays(policy, n - 1);
      Round3Near(IdealDelay(policy, n));
    }
  }

  lemma {:induction false} TotalConcat(a: seq<real>, b: seq<real>)
    ensures Total(a + b) == Total(a) + Total(b)
  {
    if b == [] {
      assert a + [] == a;
    } else {
      TotalConcat(a, b[..|b| - 1]);
      assert (a + b)[..|a + b| - 1] == a + b[..|b| - 1];
    }
  }

  function Allowance(policy: RetryPolicy): real {
    IdealTotal(policy, policy.maxRetries) + 0.0005 * policy.maxRetries as real
  }

  /** All sleeping of a call together: at most the ideal total of one model's retries for each model tried. */
  lemma {:induction false} SleepBounded(policy: RetryPolicy, blocks: seq<seq<Reply>>)
    requires policy.Valid() && InOrder(policy, blocks)
    ensures Total(AllDelays(policy, blocks)) <= |blocks| as real * Allowance(policy)
  {
    hide Delays, IdealTotal, Allowance, Total, GivenUp;
    if blocks == [] {
      assert Total([]) == 0.0 by { NoSleep(); }
    } else {
      var before, last := blocks[..|blocks| - 1], blocks[|blocks| - 1];
      SleepBounded(policy, before);
      TotalConcat(AllDelays(policy, before), Delays(policy, |last| - 1));
      WithinAllowance(policy, |last| - 1);
      OneMore(|before|, Allowance(policy));
    }
  }

  lemma NoSleep()
    ensures Total([]) == 0.0
  {
  }

  lemma OneMore(n: nat, x: real)
    ensures (n + 1) as real * x == n as real * x + x
  {
  }

  lemma WithinAllowance(policy: RetryPolicy, n: nat)
    requires policy.Valid() && n <= policy.maxRetries
    ensures Total(Delays(policy, n)) <= Allowance(policy)
  {
    hide Delays, IdealTotal, Total;
    DelaysBounded(policy, n);
    IdealTotalGrows(policy, n, policy.maxRetries);
  }

  /** The text returned after giving up is what the workflow's nodes take for a failure. */
  lemma GivingUpIsFailure(report: string)
    ensures Workflow.NoSql(Strip(ErrorText(report)))
  {
    var s := ErrorText(report);
    assert s[..6] == "ERROR:" && s[0] == 'E' && s[5] == ':';
    assert StripLeft(s) == s;
    var k := StripRightSplits(s);
    assert forall i :: k <= i < |s| ==> s[i] == s[k..][i - k];
    assert Strip(s)[..6] == s[..6];
  }
}
