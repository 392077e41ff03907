/** Retry budgets, backoff delays, stage policy and recovery hints
    (backend/retry.py, backend/policies.py, the helpers of backend/orchestration.py). */
module Retry {
  import opened Rounding
  import opened Wrappers

  /** `retry_policy` clamps what it reads from the environment into these ranges. */
  datatype RetryPolicy = RetryPolicy(maxRetries: nat, baseDelay: real, maxDelay: real, multiplier: real) {
    predicate Valid() {
      baseDelay >= 0.0 && maxDelay >= 0.0 && multiplier >= 1.0
    }
    function MaxAttempts(): nat { maxRetries + 1 }
  }

  /** An optional text is truthy when it is there and not empty. */
  predicate Truthy(error: Option<string>) {
    error.Some? && error.value != ""
  }

  predicate ShouldRetry(policy: RetryPolicy, retryCount: int, error: Option<string>) {
    Truthy(error) && retryCount < policy.maxRetries
  }

  // ---------------------------------------------------------------- delays

  function Pow(x: real, n: nat): real {
    if n == 0 then 1.0 else x * Pow(x, n - 1)
  }

  /** The delay before rounding. */
  function IdealDelay(policy: RetryPolicy, retryCount: nat): real
    requires retryCount >= 1
  {
    var delay := policy.baseDelay * Pow(policy.multiplier, retryCount - 1);
    if delay <= policy.maxDelay then delay else policy.maxDelay
  }

  function RetryDelay(policy: RetryPolicy, retryCount: int): real {
    if retryCount <= 0 || policy.baseDelay <= 0.0 then 0.0 else Round3(IdealDelay(policy, retryCount))
  }

  lemma {:induction false} PowGrows(x: real, n: nat)
    requires x >= 1.0
    ensures 1.0 <= Pow(x, n) <= Pow(x, n + 1)
  {
    if n > 0 {
      PowGrows(x, n - 1);
    }
    assert Pow(x, n + 1) == x * Pow(x, n);
    assert (x - 1.0) * Pow(x, n) >= 0.0;
  }

  lemma IdealDelaysGrow(policy: RetryPolicy, k: nat)
    requires policy.Valid() && k >= 1
    ensures 0.0 <= IdealDelay(policy, k) <= IdealDelay(policy, k + 1)
  {
    PowGrows(policy.multiplier, k - 1);
    var p, q := Pow(policy.multiplier, k - 1), Pow(policy.multiplier, k);
    assert policy.baseDelay * (q - p) >= 0.0;
    assert policy.baseDelay * p >= 0.0;
  }

  /** Successive delays never shrink. */
  lemma DelaysGrow(policy: RetryPolicy, k: int)
    requires policy.Valid()
    ensures 0.0 <= RetryDelay(policy, k) <= RetryDelay(policy, k + 1)
  {
    hide IdealDelay, Round3;
    if k >= 1 && policy.baseDelay > 0.0 {
      IdealDelaysGrow(policy, k);
      Round3Monotone(IdealDelay(policy, k), IdealDelay(policy, k + 1));
      Round3Near(IdealDelay(policy, k));
    } else if k == 0 && policy.baseDelay > 0.0 {
      IdealDelaysGrow(policy, 1);
      Round3Near(IdealDelay(policy, 1));
    }
  }

  /** No delay exceeds the cap, up to rounding, and the first retry waits the base delay if the cap allows. */
  lemma DelayCapped(policy: RetryPolicy, k: int)
    requires policy.Valid()
    ensures RetryDelay(policy, k) <= policy.maxDelay + 0.0005
    ensures 0.0 < policy.baseDelay <= policy.maxDelay ==> -0.0005 <= RetryDelay(policy, 1) - policy.baseDelay <= 0.0005
  {
    assert Pow(policy.multiplier, 0) == 1.0;
    if k >= 1 { Round3Near(IdealDelay(policy, k)); }
    Round3Near(IdealDelay(policy, 1));
    hide Round3;
  }

  /** The sum of the first `n` ideal delays. */
  function IdealTotal(policy: RetryPolicy, n: nat): real {
    if n == 0 then 0.0 else IdealTotal(policy, n - 1) + (if policy.baseDelay <= 0.0 then 0.0 else IdealDelay(policy, n))
  }

  // ---------------------------------------------------------------- stage policy and recovery

  datatype StepName =
    | Planner | SchemaRetrieval | MemoryRetrieval | SqlGeneration | Validation | Reflection | Execution

  datatype Action = Continue | RetryStage | Monitor | Degrade | Escalate

  function StageAction(
    stage: StepName, confidence: real, retryCount: int, error: Option<string>, floor: real, policy: RetryPolicy): Action
  {
    var action :=
      if ShouldRetry(policy, retryCount, error) then RetryStage
      else if Truthy(error) then Degrade
      else if confidence < floor then Monitor
      else Continue;
    if action == Degrade && (stage == Validation || stage == Execution) then Escalate else action
  }

  datatype Strategy = NoRecovery | ReflectionRetry | GracefulDegradation

  function RecoveryHint(error: string, retryCount: int, maxRetries: nat): Strategy {
    if error == "" then NoRecovery
    else if retryCount < maxRetries then ReflectionRetry
    else GracefulDegradation
  }
}
