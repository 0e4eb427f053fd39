/** Retry policies and how many attempts they can lead to. */
module Retry {
  import opened Wrappers

  datatype FailureKind = ERROR | TIMEOUT | CANCELLED

  datatype Jitter = Plain | Full | Equal

  datatype Policy =
    | NoRetry
    | MaxAttempts(maxAttempts: int, delay: Option<real>)
    | ExponentialBackoff(maxAttempts: int, minDelay: real, maxDelay: real, multiplier: real, jitter: Jitter)
    | ByFailureKind(policies: map<string, Policy>)

  datatype Decision = Retry(delay: Option<real>) | Fail

  function Text(kind: FailureKind): string {
    match kind case ERROR => "error" case TIMEOUT => "timeout" case CANCELLED => "cancelled"
  }

  /** What the constructors accept. */
  predicate Valid(p: Policy) {
    match p
    case NoRetry => true
    case MaxAttempts(n, _) => n >= 1
    case ExponentialBackoff(n, low, high, multiplier, _) => n >= 1 && 0.0 <= low <= high && multiplier > 0.0
    case ByFailureKind(policies) => policies != map[] && forall key <- policies :: Valid(policies[key])
  }

  /** A random draw from [0, 1]. */
  type Draw = u: real | 0.0 <= u <= 1.0 witness 0.0

  function Uniform(low: real, high: real, u: Draw): real { low + u * (high - low) }

  function Min(a: real, b: real): real { if b < a then b else a }

  function Max(a: real, b: real): real { if b > a then b else a }

  function Power(base: real, n: nat): real { if n == 0 then 1.0 else base * Power(base, n - 1) }

  /** The exponential delay before the cap and the jitter. */
  function RawDelay(p: Policy, attempts: nat): real
    requires p.ExponentialBackoff?
  {
    p.minDelay * Power(p.multiplier, attempts)
  }

  function Delay(p: Policy, attempts: nat, u: Draw): real
    requires p.ExponentialBackoff?
  {
    var delay := Min(RawDelay(p, attempts), p.maxDelay);
    match p.jitter
    case Plain => delay
    case Full => Uniform(0.0, delay, u)
    case Equal => Uniform(Max(0.0, delay - delay / 2.0), Min(p.maxDelay, delay + delay / 2.0), u)
  }

  function OnError(p: Policy, attempts: nat, kind: FailureKind, u: Draw): Decision {
    match p
    case NoRetry => Fail
    case MaxAttempts(n, delay) => if attempts + 1 < n then Retry(delay) else Fail
    case ExponentialBackoff(n, _, _, _, _) => if attempts + 1 >= n then Fail else Retry(Some(Delay(p, attempts, u)))
    case ByFailureKind(policies) =>
      if Text(kind) in policies then OnError(policies[Text(kind)], attempts, kind, u)
      else if "default" in policies then OnError(policies["default"], attempts, kind, u)
      else Fail
  }

  // --------------------------------------------------------------- the decision

  /** `leaf` decides on failures of this kind: the policy itself; or, in a mapping, what its
      entry for the kind leads to, or its default where it has none. */
  ghost predicate InCharge(p: Policy, leaf: Policy, kind: FailureKind)
    decreases p
  {
    match p
    case ByFailureKind(policies) =>
      exists key <- policies ::
        (key == Text(kind) || (key == "default" && Text(kind) !in policies)) && InCharge(policies[key], leaf, kind)
    case _ => leaf == p
  }

  /** How many attempts a leaf allows. */
  function Allowed(leaf: Policy): int {
    match leaf
    case MaxAttempts(n, _) => n
    case ExponentialBackoff(n, _, _, _, _) => n
    case _ => 1
  }

  lemma {:induction false} OneInCharge(p: Policy, leaf: Policy, other: Policy, kind: FailureKind)
    requires InCharge(p, leaf, kind) && InCharge(p, other, kind)
    ensures leaf == other && !leaf.ByFailureKind?
    decreases p
  {
    match p
    case ByFailureKind(policies) =>
      var key := if Text(kind) in policies then Text(kind) else "default";
      OneInCharge(policies[key], leaf, other, kind);
    case _ =>
  }

  lemma {:induction false} LeafIsValid(p: Policy, leaf: Policy, kind: FailureKind)
    requires Valid(p) && InCharge(p, leaf, kind)
    ensures Valid(leaf) && Allowed(leaf) >= 1
    decreases p
  {
    match p
    case ByFailureKind(policies) =>
      var key :| key in policies && (key == Text(kind) || (key == "default" && Text(kind) !in policies))
        && InCharge(policies[key], leaf, kind);
      LeafIsValid(policies[key], leaf, kind);
    case _ =>
  }

  /** The exponential delay, cut off at its maximum. */
  function Capped(leaf: Policy, attempts: nat): real
    requires leaf.ExponentialBackoff?
  {
    var raw := leaf.minDelay * Power(leaf.multiplier, attempts);
    if raw <= leaf.maxDelay then raw else leaf.maxDelay
  }

  /** What a draw makes of it: nothing, a part of it, or a value between its half and one
      and a half of it, that within the maximum too. */
  function Drawn(capped: real, high: real, jitter: Jitter, u: Draw): real {
    match jitter
    case Plain => capped
    case Full => u * capped
    case Equal => (1.0 - u) * (capped * 0.5) + u * (if capped * 1.5 <= high then capped * 1.5 else high)
  }

  /** What a leaf answers on a retry. */
  function LeafDelay(leaf: Policy, attempts: nat, u: Draw): Option<real> {
    match leaf
    case MaxAttempts(_, d) => d
    case ExponentialBackoff(_, _, high, _, jitter) => Some(Drawn(Capped(leaf, attempts), high, jitter, u))
    case _ => None
  }

  lemma LeafDecides(leaf: Policy, attempts: nat, kind: FailureKind, u: Draw)
    requires Valid(leaf) && !leaf.ByFailureKind?
    ensures var d := OnError(leaf, attempts, kind, u);
      && (d.Retry? <==> attempts + 1 < Allowed(leaf))
      && (d.Retry? ==> d.delay == LeafDelay(leaf, attempts, u))
  {
    if leaf.ExponentialBackoff? {
      RawDelayBounds(leaf, attempts);
      DelayOf(leaf, attempts, u);
    }
  }

  lemma DelayOf(leaf: Policy, attempts: nat, u: Draw)
    requires Valid(leaf) && leaf.ExponentialBackoff? && RawDelay(leaf, attempts) >= 0.0
    ensures Delay(leaf, attempts, u) == Drawn(Capped(leaf, attempts), leaf.maxDelay, leaf.jitter, u)
  {
    var capped := Capped(leaf, attempts);
    assert capped == Min(RawDelay(leaf, attempts), leaf.maxDelay) && 0.0 <= capped;
    if leaf.jitter.Equal? {
      var low, top := capped * 0.5, if capped * 1.5 <= leaf.maxDelay then capped * 1.5 else leaf.maxDelay;
      Mixed(low, top, u);
      assert Delay(leaf, attempts, u) == Uniform(low, top, u);
    }
  }

  lemma Mixed(low: real, high: real, u: real)
    ensures low + u * (high - low) == (1.0 - u) * low + u * high
  {
  }

  /** A failure is retried if and only if a leaf is in charge of its kind and allows another
      attempt after it; and then with the delay of that leaf. */
  lemma {:induction false} DecisionIff(p: Policy, attempts: nat, kind: FailureKind, u: Draw)
    requires Valid(p)
    ensures var d := OnError(p, attempts, kind, u);
      && (d.Retry? <==> exists leaf :: InCharge(p, leaf, kind) && attempts + 1 < Allowed(leaf))
      && (d.Retry? ==> exists leaf :: InCharge(p, leaf, kind) && d.delay == LeafDelay(leaf, attempts, u))
    decreases p
  {
    match p
    case ByFailureKind(policies) =>
      if Text(kind) in policies || "default" in policies {
        var key := if Text(kind) in policies then Text(kind) else "default";
        DecisionIff(policies[key], attempts, kind, u);
        SameInCharge(p, key, kind);
      }
    case _ =>
      LeafDecides(p, attempts, kind, u);
      assert InCharge(p, p, kind);
  }

  lemma SameInCharge(p: Policy, key: string, kind: FailureKind)
    requires p.ByFailureKind? && key in p.policies
    requires key == Text(kind) || (key == "default" && Text(kind) !in p.policies)
    ensures forall leaf :: InCharge(p, leaf, kind) <==> InCharge(p.policies[key], leaf, kind)
  {
  }

  // ------------------------------------------------------------ attempt bounds

  /** `bound` is at least every leaf's number of attempts. */
  predicate BoundedBy(p: Policy, bound: int) {
    match p
    case NoRetry => 1 <= bound
    case MaxAttempts(n, _) => n <= bound
    case ExponentialBackoff(n, _, _, _, _) => n <= bound
    case ByFailureKind(policies) => 1 <= bound && forall key <- policies :: BoundedBy(policies[key], bound)
  }

  /** Some leaf allows `bound` attempts. */
  predicate Attained(p: Policy, bound: int) {
    match p
    case NoRetry => bound == 1
    case MaxAttempts(n, _) => n == bound
    case ExponentialBackoff(n, _, _, _, _) => n == bound
    case ByFailureKind(policies) => bound == 1 || exists key <- policies :: Attained(policies[key], bound)
  }

  /** Retrying is decided only below the bound, whatever fails and whatever is drawn. */
  lemma {:induction false} RetryBelowBound(p: Policy, bound: int, attempts: nat, kind: FailureKind, u: Draw)
    requires BoundedBy(p, bound) && OnError(p, attempts, kind, u).Retry?
    ensures attempts + 1 < bound
  {
    match p
    case ByFailureKind(policies) =>
      if Text(kind) in policies {
        RetryBelowBound(policies[Text(kind)], bound, attempts, kind, u);
      } else {
        RetryBelowBound(policies["default"], bound, attempts, kind, u);
      }
    case _ =>
  }

  /** Every policy has a least bound, the attempts of one of its leaves. */
  lemma {:induction false} MaxLeaf(p: Policy) returns (bound: int)
    ensures BoundedBy(p, bound) && Attained(p, bound)
    ensures Valid(p) ==> bound >= 1
  {
    match p
    case NoRetry => bound := 1;
    case MaxAttempts(n, _) => bound := n;
    case ExponentialBackoff(n, _, _, _, _) => bound := n;
    case ByFailureKind(policies) =>
      bound := 1;
      var left := policies.Keys;
      while left != {}
        invariant left <= policies.Keys && bound >= 1
        invariant forall key <- policies.Keys - left :: BoundedBy(policies[key], bound)
        invariant bound == 1 || exists key <- policies :: Attained(policies[key], bound)
        decreases |left|
      {
        var key :| key in left;
        var b := MaxLeaf(policies[key]);
        forall k | k in policies.Keys - left ensures b > bound ==> BoundedBy(policies[k], b) {
          if b > bound {
            BoundGrows(policies[k], bound, b);
          }
        }
        if b > bound {
          bound := b;
        } else {
          BoundGrows(policies[key], b, bound);
        }
        left := left - {key};
      }
  }

  lemma {:induction false} BoundGrows(p: Policy, low: int, high: int)
    requires BoundedBy(p, low) && low <= high
    ensures BoundedBy(p, high)
  {
    match p
    case ByFailureKind(policies) =>
      forall key | key in policies ensures BoundedBy(policies[key], high) {
        BoundGrows(policies[key], low, high);
      }
    case _ =>
  }

  // ------------------------------------------------------------------- delays

  /** Every delay the policy can name: the fixed one of a leaf, or one within a
      backoff's limits. */
  predicate Names(p: Policy, delay: Option<real>) {
    match p
    case NoRetry => false
    case MaxAttempts(_, d) => delay == d
    case ExponentialBackoff(_, low, high, multiplier, jitter) =>
      && delay.Some? && 0.0 <= delay.value <= high
      && (jitter.Plain? && multiplier >= 1.0 ==> low <= delay.value)
      && (jitter.Equal? && multiplier >= 1.0 ==> low / 2.0 <= delay.value)
    case ByFailureKind(policies) => exists key <- policies :: Names(policies[key], delay)
  }

  lemma {:induction false} PowerPositive(base: real, n: nat)
    requires base > 0.0
    ensures Power(base, n) > 0.0
  {
    if n > 0 {
      PowerPositive(base, n - 1);
    }
  }

  lemma {:induction false} PowerGrows(base: real, n: nat)
    requires base >= 1.0
    ensures Power(base, n) >= 1.0
  {
    if n > 0 {
      PowerGrows(base, n - 1);
    }
  }

  lemma Product(a: real, b: real)
    requires a >= 0.0 && b >= 0.0
    ensures a * b >= 0.0
  {
  }

  lemma Within(low: real, high: real, u: Draw)
    requires low <= high
    ensures low <= Uniform(low, high, u) <= high
  {
    Product(u, high - low);
    Product(1.0 - u, high - low);
    assert u * (high - low) + (1.0 - u) * (high - low) == high - low;
  }

  lemma Grows(m: real, k: real)
    requires m >= 0.0 && k >= 1.0
    ensures m <= m * k
  {
    Product(m, k - 1.0);
    assert m * k == m + m * (k - 1.0);
  }

  lemma RawDelayBounds(p: Policy, attempts: nat)
    requires p.ExponentialBackoff? && Valid(p)
    ensures 0.0 <= RawDelay(p, attempts)
    ensures p.multiplier >= 1.0 ==> p.minDelay <= RawDelay(p, attempts)
  {
    var factor := Power(p.multiplier, attempts);
    PowerPositive(p.multiplier, attempts);
    Product(p.minDelay, factor);
    if p.multiplier >= 1.0 {
      PowerGrows(p.multiplier, attempts);
      Grows(p.minDelay, factor);
    }
  }

  lemma BackoffDelay(p: Policy, attempts: nat, u: Draw)
    requires p.ExponentialBackoff? && Valid(p)
    ensures Names(p, Some(Delay(p, attempts, u)))
  {
    RawDelayBounds(p, attempts);
    var delay := Min(RawDelay(p, attempts), p.maxDelay);
    match p.jitter
    case Plain =>
    case Full => Within(0.0, delay, u);
    case Equal => Within(Max(0.0, delay - delay / 2.0), Min(p.maxDelay, delay + delay / 2.0), u);
  }

  /** A retry's delay is one the policy names: a fixed delay as it is written, and a
      backoff delay never negative and never above the limit. */
  lemma {:induction false} RetryDelayNamed(p: Policy, attempts: nat, kind: FailureKind, u: Draw)
    requires Valid(p) && OnError(p, attempts, kind, u).Retry?
    ensures Names(p, OnError(p, attempts, kind, u).delay)
  {
    match p
    case ExponentialBackoff(_, _, _, _, _) => BackoffDelay(p, attempts, u);
    case ByFailureKind(policies) =>
      var key := if Text(kind) in policies then Text(kind) else "default";
      RetryDelayNamed(policies[key], attempts, kind, u);
    case _ =>
  }
}
